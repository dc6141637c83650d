# Links 'R' Us: verified models

Dafny models of the parts of Links 'R' Us - a web crawler and search engine that ranks pages by
PageRank - where correctness depends on schedules, on arithmetic or on several maps staying in step,
with proofs of what they are for. `dafny verify dfyconfig.toml` checks all of them.

**PageRank on the bulk synchronous parallel engine.** `PageRank` is the mathematics: the transition
matrix with dead ends, the damped iteration, conservation of mass, contraction, the bound on the
number of supersteps, the quality of the result; `FixedPoint` shows that the PageRank vector exists.
`Bsp` is the engine as a machine of interleaved atomic steps with an arbitrary compute function;
`Calculator` is the PageRank program on it, one accumulator or queue operation at a time. `Schedule`
proves an invariant over every interleaving, and `Supersteps` draws the conclusions for whole runs:
whatever the order of vertices and messages and whatever an earlier run left behind, each superstep
is one iteration, and the run stops when it should. `Executor` is the program itself on mutable
vertices, queues and accumulators, down to the executor's loop; each of its actions is a step of the
machine, as `ExecutorSpec` spells out. `WorkerPool` is the barrier protocol of the compute workers
over many supersteps, and `Engine` puts it together with the engine: workers look at queues that
others are filling, and still the right vertices are computed. `AccumulatorMachine` has the
compare-and-swap loops under contention. `Sums` adds up finite maps of reals.

**The pipeline.** `Pipeline` models source, stages, sink, channels, error bus and context as a step
machine for any list of FIFO, fixed-pool, dynamic-pool and broadcast stages. `Shutdown` proves that
it always ends, `Flow` that nothing is lost or duplicated, `Routes` which processors work on what,
`FifoOrder` that FIFO stages keep the order whatever fails, `Crawler` that a crawl reports the right
count and both of its last processors see every link. `Broadcasting` looks into the payload objects
of a broadcast, whose clones may come too late.

**The link graph.** `LinkGraph` is the in-memory graph as a value with its invariant over every
history of operations; `InMemoryGraph` is the graph on mutable records with its `GraphIterators`,
`GraphUpdater` the crawler stage on it, and `Recrawl` says what crawling a page again does to its
edges. `Uuids`, `Partition` and `Scan` cover the split of the identifier space and the scan of links
and edges by partition.

**Streaming readers.** `Utf8` and `Sentence` cover the sentence splitter, `Paging` the iterator over
pages of search results.

## How to read the model

- Scores are exact reals; `float64` rounding is not modelled, so addition order does not matter.
- A *web* is closed if every edge leads to a stored vertex. Parallel edges count separately. On a web
  that is not closed the compute function fails when it sends, and `Executor` says how a run then ends.
- Machines have atomic actions; a *run* is any sequence of enabled actions from a start state.
  Fields called history record what has happened and influence nothing.
- The clock is read as natural numbers. Identifiers drawn at random are arguments that are not in
  use, which is what the retry loops of the program make sure of. The character classes of Unicode
  are arbitrary predicates, and a search is a fixed list of results of which some pages may fail.
- Processors of a pipeline are functions of the payload's content. Payload objects, with what cloning
  and recycling do to them, are the subject of `Broadcasting` only.
- Go panics, goroutine leaks inside sources, processors, sinks and compute functions, and 64-bit
  wrap-around are not modelled: these functions are taken to return.

Where comment and code disagree, the model follows the code: a sentence keeps its final punctuation
(the comment on `scanSentence` says it is stripped); the symbol class is looked up for the first
character of a triplet in both places (`breakSentenceAtMiddleChar`); `NewRange` does not add the
start to its splits, so that a range is tiled by its partitions only if there is one of them or the
start is at most the partition size (see `Partition.TilesIff`); the damping factor may be 1, for
which the executor need not stop (see `PageRank.StarNeverStops`); a recrawl leaves edges that are no
longer on the page if their time equals the mark (see `Recrawl.InexactRecrawl`); a broadcast clones
a payload after handing it over, so that a clone need not be a copy of what was read (see
`Broadcasting.FaithfulIff`).

## Model

| member | source | states |
|---|---|---|
| `PageRank.RowSum` | pagerank/compute.go:58-71 | the ways a score is handed on - an equal share per outgoing edge, parallel edges counted, or a uniform jump out of a dead end - add up to 1 for every page |
| `PageRank.InflowKeepsTotal` | pagerank/compute.go:42-71 | moving any vector along the links and dead-end jumps neither creates nor destroys mass |
| `PageRank.MassConservation` | pagerank/compute.go:33-71 | the iterates of every superstep from 1 on sum to exactly 1, on every closed web |
| `PageRank.ScoreBounds` | pagerank/compute.go:33-71 | every iterate lies between (1-d)/N and 1, for 0 < d <= 1 |
| `PageRank.Contraction` | pagerank/compute.go:41-50 | one iteration brings any two score vectors closer, in summed absolute difference, by at least the damping factor |
| `PageRank.SadShrinks` | pagerank/compute.go:53-54 | SAD(s+1) <= d * SAD(s) for every superstep s >= 2 |
| `PageRank.SadBound` | pagerank/compute.go:53-54 | 0 <= SAD(s) <= 2 * d^(s-2) for every superstep s >= 2 |
| `PageRank.StopLimit` | pagerank/calculator.go:83-88 | the limit is the first s >= 2 with 2 * d^(s-2) below the threshold, and there is one for d < 1 |
| `PageRank.StopsByLimit` | pagerank/calculator.go:83-88 | for d < 1 the stop predicate has fired by that limit, on every closed web |
| `PageRank.FixedPointUnique` | pagerank/compute.go:41-50 | for d < 1 the PageRank map has at most one fixed point |
| `PageRank.StopError` | pagerank/calculator.go:83-88 | when the predicate fires, the scores are within d/(1-d) * SAD, hence within d/(1-d) * threshold, of the fixed point |
| `FixedPoint.FixedPointExists` | pagerank/compute.go:41-50 | for 0 <= d < 1 the PageRank map of every closed web has a fixed point, the PageRank vector |
| `FixedPoint.RanksAreDistribution` | pagerank/compute.go:33-50 | the PageRank vector sums to 1 and gives every page at least (1-d)/N |
| `FixedPoint.Convergence` | pagerank/compute.go:39-54 | the iterate of superstep s is within d^(s-1) times the initial distance of the PageRank vector |
| `PageRank.StarNeverStops` | pagerank/config.go:37 | the damping factor 1, which validation admits, never stops on the star web, for any threshold below 1 |
| `PageRank.StopsOnEveryWebIff` | pagerank/config.go:37-47 | among the damping factors that validation admits, exactly those below 1 make the run stop on every closed web |
| `Bsp.Isolation` | bsp/graph.go:212-219 | over every run on a fresh graph, what is offered to a vertex in superstep k is exactly what was sent to it in k-1, once its turn has come, and nothing else ever; it is computed at most once; the write side holds exactly what was sent in the current superstep |
| `Bsp.WriteSideStartsEmpty` | bsp/graph.go:281-292 | when a superstep begins, the write-side queue of every vertex is empty |
| `Bsp.TurnIsDecided` | bsp/graph.go:283-286 | whether a waiting vertex is computed or skipped depends only on its activity and on whether anything was sent to it in the superstep before |
| `Bsp.ReadSideIsPrivate` | bsp/graph.go:216-218 | no step of another vertex, and no send, not even of the vertex to itself, changes the queue a vertex reads in this superstep, its activity or its phase |
| `Bsp.HistoryHolds` | bsp/graph.go:281-292 | the account of sent, due, offered and computed kept for every vertex and superstep holds at every point of every run |
| `Bsp.TakenOnce` | bsp/graph.go:281-292 | no message is taken twice or lost: what a compute function has taken was offered to it, and what it has not taken stays in its queue while it runs, and if it fails |
| `Bsp.ActiveIff` | bsp/graph.go:40-43 | at every point of every run a vertex is active if and only if it has not frozen itself since it was last claimed; one never claimed is as it was at the start |
| `Calculator.ResidualOutput` | pagerank/calculator.go:116-121 | the residual written in a superstep is the one read in the next and never the one read in the same superstep |
| `Calculator.DeliveredOneMore` | bsp/graph.go:188-196 | serving one more edge adds exactly one share, at the end of that edge |
| `Calculator.DeliveredIsArrives` | pagerank/compute.go:58-71 | full delivery of shares plus the residual of the dead ends is what arrives along the transition matrix |
| `Calculator.TargetSplits` | pagerank/compute.go:41-50 | the teleport share, the damped messages and the damped residual add up to the entry of the next iterate |
| `Schedule.StartInv` | bsp/executor.go:50-57 | the invariant holds for a new executor, whatever vertex values and queued messages it finds |
| `Schedule.InvStep` | pagerank/compute.go:18-73 | every atomic action of every interleaving keeps the invariant that ties program counters, queues and accumulators to the iterate being computed |
| `Schedule.Bystander` | bsp/graph.go:212-219 | an action of one vertex leaves value, program counter, phase and read queue of every other vertex alone |
| `Schedule.AllServed` | bsp/graph.go:252-253 | when a superstep is over every edge has been served and every change recorded |
| `Supersteps.SuperstepIsIteration` | pagerank/compute.go:39-71 | under every schedule, the vertex values after superstep s are exactly the s-th iterate x' = (1-d)/N + d * transpose(P) x, and the accumulated SAD is the distance of the last two iterates |
| `Supersteps.ScheduleIndependence` | bsp/graph.go:248-292 | two runs, with any order of vertices and messages and any leftovers of earlier runs, have equal scores after the same superstep |
| `Supersteps.ScoresAreDistribution` | pagerank/compute.go:33-71 | after every superstep s >= 1 of every run the scores sum to 1 and lie in [(1-d)/N, 1] |
| `Supersteps.StopDecision` | pagerank/calculator.go:83-88 | the executor goes on after a superstep exactly when the iteration has not met the stop condition there |
| `Supersteps.GoesOnIff` | pagerank/calculator.go:83-88 | the next superstep can start if and only if this was one of the first two or the summed change of the scores is at least the threshold; a change equal to it goes on |
| `Supersteps.NotStoppedBefore` | bsp/executor.go:91-103 | no superstep is started once an earlier one has met the stop condition |
| `Supersteps.NeverPastLimit` | bsp/executor.go:91-103 | for d < 1 no run, however scheduled, gets past the first s >= 2 with 2 * d^(s-2) below the threshold |
| `Supersteps.StoppedScoresAreClose` | pagerank/calculator.go:83-88 | the scores of a stopped run are within d/(1-d) * threshold of the PageRank vector, in summed absolute difference |
| `Supersteps.NoDeadlock` | bsp/graph.go:248-253 | a vertex that is not done can always take its next action, and when all are done the next superstep can start unless the run has stopped |
| `Supersteps.WorkDecreases` | bsp/graph.go:281-296 | every action within a superstep uses up one of finitely many, messages for the next superstep counted, so every superstep ends under every schedule |
| `Supersteps.WorkAdvances` | bsp/executor.go:91-103 | starting a superstep adds a fixed quota of work, two for an edge and ten for a vertex, beyond the messages already written |
| `Supersteps.RunsEnd` | bsp/executor.go:83-106 | if some superstep meets the stop condition, every run, however scheduled, has at most as many actions as the leftover messages and the quotas of the supersteps up to that one |
| `Supersteps.DampedRunsEnd` | bsp/executor.go:83-106 | with d < 1 that bounds every run on every closed web, by the first s >= 2 with 2 * d^(s-2) below the threshold |
| `Supersteps.RunsOnEngine` | bsp/graph.go:281-292 | seen through its queues, a calculator run on a fresh graph is a run of the engine, so message isolation applies to it |
| `Executor.Graph.AddVertex` | bsp/graph.go:135-150 | adds a vertex without edges or overwrites the value of an existing one, and changes nothing else |
| `Executor.Graph.AddEdge` | pagerank/calculator.go:56-64 | appends the edge to the list of its source; a self-edge is ignored, even without such a vertex; an unknown source is an error |
| `Executor.Graph.NewExecutor` | pagerank/calculator.go:73-101 | new aggregators and superstep 0 on the same vertices, values and queued messages: a start state of the machine |
| `Executor.Graph.SendMessage` | bsp/graph.go:212-231 | appends to the write-side queue of the destination and touches nothing else, or reports an unknown destination |
| `Executor.Graph.BroadcastToNeighbors` | bsp/graph.go:188-196 | the loop over the edges takes the machine from no edge served to all served, or stops with an error at the first edge that leads nowhere; it fails exactly if there is one |
| `Executor.Graph.TakeMessages` | pagerank/compute.go:42-45 | the message loop empties the queue and adds every damped score, as steps of the machine |
| `Executor.Graph.Publish` | pagerank/compute.go:53-71 | change recorded, score stored, and the score handed to the residual or to the neighbours, as steps of the machine; fails exactly if an edge leads nowhere |
| `Executor.Graph.Compute` | pagerank/compute.go:19-72 | one call of the compute function takes its vertex from started to returned by steps of the machine and moves no other vertex; it fails exactly if it sends and an edge of the vertex leads nowhere |
| `Executor.Graph.StepWorker` | bsp/graph.go:281-296 | a worker takes a waiting vertex to done, or to failed if the compute function fails, and leaves the phases of all others; on a closed web it keeps the invariant |
| `Executor.Graph.RunSuperstep` | bsp/graph.go:239-263 | the vertices, in any order, all get their turn, also after a failure; the number of active vertices is returned, and an error exactly if, from superstep 1 on, some edge leads nowhere |
| `Executor.Graph.PreStep` | pagerank/calculator.go:76-82 | resetting SAD and the residual about to be written is the machine's step to the next superstep |
| `Executor.Graph.Superstep` | bsp/executor.go:92-102 | one pass of the loop body computes one more iterate, and its predicate tells whether the iteration has stopped; on a web that is not closed it fails from superstep 1 on |
| `Executor.Graph.Run` | bsp/executor.go:83-106 | on every graph, and for every run that has an end: the loop ends after exactly the supersteps, and with the error, that stop condition, failure, step limit and context expiry determine, with the scores of the iterate it has reached; the counter then stands at the number of supersteps, or one below if the stop condition ended the run |
| `ExecutorSpec.RanForIsUnique` | bsp/executor.go:83-106 | links, parameters and moment of expiry admit one number of supersteps and one error result, so a rerun ends like the first run |
| `ExecutorSpec.OutcomeIff` | bsp/executor.go:83-106 | a run has an outcome if and only if there is a step limit, the context expires, an edge leads nowhere or some superstep meets the stop condition |
| `ExecutorSpec.DampedEnds` | bsp/executor.go:83-106 | with d < 1 and a positive threshold every run has an outcome, on every graph |
| `ExecutorSpec.CompletionIsClose` | bsp/executor.go:62-64 | a run to completion that ends without an error leaves scores within d/(1-d) * threshold of the PageRank vector |
| `MemoryQueue.InMemoryQueue.Enqueue` | bsp/memory_queue.go:22-27 | appends at the tail |
| `MemoryQueue.InMemoryQueue.DiscardMessages` | bsp/memory_queue.go:38-44 | empties queue and latch |
| `MemoryQueue.InMemoryQueue.Next` | bsp/memory_queue.go:53-66 | moves the tail message into the latch; false and no change on an empty queue |
| `WorkerPool.InvStep` | bsp/graph.go:239-305 | every action of caller and workers, over any number of supersteps, keeps the pool's invariant |
| `WorkerPool.Barrier` | bsp/graph.go:239-263 | when a superstep returns, every active or messaged vertex was computed exactly once and every other one skipped exactly once, the active count is right, the error returned is the first one of this superstep and there is one iff something failed, and no worker or error is left over |
| `WorkerPool.SignalAfterLast` | bsp/graph.go:293-295 | completion is signalled once, only after the last vertex is done and with all other workers polling |
| `WorkerPool.NoLateDecrement` | bsp/graph.go:293 | a worker only ever decrements the counter of the superstep that handed it the vertex |
| `WorkerPool.NoDeadlock` | bsp/graph.go:248-263 | no reachable state in the middle of a superstep is stuck |
| `WorkerPool.WorkDecreases` | bsp/graph.go:281-296 | every action within a superstep leaves less work, so every superstep ends |
| `Engine.InvStep` | bsp/graph.go:239-305 | every action of caller, workers and compute functions keeps the invariant that ties the pool to the queues, activity and phases of the vertices |
| `Engine.PoolSteps` | bsp/graph.go:281-292 | what the pool does is a step of the pool in which a worker's look at its vertex gives what held when the superstep began |
| `Engine.LookIsTimeless` | bsp/graph.go:283-286 | at the moment a worker looks at a vertex, while others compute and send, it finds it active or with messages exactly if the superstep began with it so |
| `Engine.Barrier` | bsp/graph.go:239-263 | when a superstep returns, exactly the vertices that were active or had messages when it began have been computed, each once, and are counted; nobody is computing; there is an error iff some vertex has failed, and the next superstep can begin iff there is none |
| `Engine.RunsEngine` | bsp/graph.go:281-292 | the engine's part of a run of pool and engine together is a run of the engine, so message isolation applies to it |
| `Engine.TurnIsDue` | bsp/graph.go:283-286 | on a fresh graph the vertices that a superstep computes are those that are active and those to which something was sent in the superstep before |
| `Engine.AwakeIff` | bsp/graph.go:40-43 | the same over the actions of pool and engine together: a vertex is active if and only if it has not frozen itself since a worker last began to compute it |
| `Engine.ComputedIff` | bsp/graph.go:239-305 | a superstep that has returned on a fresh graph has computed a vertex once if it had not frozen itself since it was last computed or if something was sent to it in the superstep before, and else not at all; counted over the actions of the workers |
| `Engine.FrozenIsSkipped` | bsp/graph.go:283-286 | a vertex that froze itself when it was last computed, and to which nothing was sent in the superstep before, is skipped |
| `Engine.NoDeadlock` | bsp/graph.go:248-305 | in the middle of a superstep some action of pool and engine together is always possible |
| `AccumulatorMachine.LedgerHolds` | bsp/accumulator.go:47-75 | in every interleaving of Aggregate and Delta the sum is its start plus what completed calls added, Delta results add up to the change of prevSum, and nothing is lost |
| `AccumulatorMachine.Quiescent` | bsp/accumulator.go:63-75 | once all calls have returned, one further Delta accounts for everything that was aggregated |
| `AccumulatorMachine.SumOfCalls` | bsp/accumulator.go:47-59 | once all calls have returned, the sum has grown by exactly the values that Aggregate was called with |
| `AccumulatorMachine.FailureMeansProgress` | bsp/accumulator.go:51-57 | a failed compare-and-swap implies that another operation has succeeded since the load |
| `Accumulator.Float64Accumulator.Set` | bsp/accumulator.go:26-44 | the loop of the two swaps ends and has set both sums |
| `Accumulator.Float64Accumulator.Aggregate` | bsp/accumulator.go:47-59 | the retry loop ends and has added to the current sum only |
| `Accumulator.Float64Accumulator.Delta` | bsp/accumulator.go:63-75 | the retry loop ends, returns what was added since the last Delta or Set and has remembered it as reported |
| `Accumulator.IntAccumulator.Aggregate` | bsp/accumulator.go:113-115 | adds to the current sum only |
| `Accumulator.IntAccumulator.Delta` | bsp/accumulator.go:119-127 | the retry loop ends, returns what was added since the last Delta or Set and has remembered it as reported |
| `Pipeline.InvStep` | pipeline/pipeline.go:51-121 | every channel operation and return, in every interleaving of normal end, errors and cancellation, keeps the pipeline's invariant |
| `Pipeline.NoSendOnClosed` | pipeline/pipeline.go:82-95 | no goroutine ever is about to send on a closed channel |
| `Pipeline.NoEmitAfterClose` | pipeline/pipeline.go:107-111 | errors are emitted only while the error channel is open, and it is closed at most once |
| `Pipeline.ReturnedCleanly` | pipeline/pipeline.go:113-120 | when Process returns, every worker has exited, every channel is closed, and the result is an error iff some component emitted one |
| `Pipeline.ReturnsEmittedErrors` | pipeline/pipeline.go:113-120 | Process returns only errors that were emitted, and all of them in order if they fit into the error channel |
| `Pipeline.SlotsStay` | pipeline/stage.go:144-168 | a slot of a dynamic pool outlives errors and cancellation: in every run it is gone only after its input has been closed |
| `Pipeline.CancelledCanLeave` | pipeline/pipeline.go:126-165 | once the context is cancelled, every goroutine that waits for a channel can exit |
| `Shutdown.NoDeadlock` | pipeline/pipeline.go:51-121 | until Process has returned, some goroutine can act in every reachable state |
| `Shutdown.RunsEnd` | pipeline/pipeline.go:51-121 | no run is longer than a bound computed from its first state, so Process always returns |
| `Flow.FlowStep` | pipeline/stage.go:21-60 | as long as nothing has failed or been cancelled, no step loses or adds a payload on its way to the sink |
| `Flow.TakenYield` | pipeline/stage.go:228-245 | a splitter that takes a payload owes every branch of a broadcast, and one worker of a dynamic pool, exactly one copy |
| `Flow.Conservation` | pipeline/pipeline.go:126-165 | in undisturbed runs the sink consumes exactly what the stages make of the source's payloads, each as often as it should, for any mix of stages |
| `Flow.NothingInvented` | pipeline/pipeline.go:126-165 | at every point of every run, with errors and cancellation, the sink has consumed nothing but what the stages make of the source's payloads, and none of it more often than it should |
| `Routes.DeliveredByRoutes` | pipeline/stage.go:186-245 | in undisturbed runs the sink consumes a payload exactly as often as there are pairs of a payload of the source and a route - one processor of a plain stage, any processor of a broadcast - on which the processors make it of that payload |
| `Routes.DeliveredWithinRoutes` | pipeline/stage.go:186-245 | at every point of every run it has consumed it at most so often |
| `Routes.OneBroadcast` | pipeline/stage.go:190-217 | a pipeline that is one broadcast delivers a payload as often as there are pairs of a payload of the source and a processor that makes it of that payload |
| `Routes.IsRoute` | pipeline/stage.go:62-196 | a route names a processor of each stage: the only one of a plain stage, any one of a broadcast |
| `FifoOrder.DeliversPrefix` | pipeline/stage.go:21-60 | at every point of every run of a pipeline of FIFO stages, with errors and cancellation, the sink has consumed a prefix of the composed filter and map of the source |
| `FifoOrder.DeliversInOrder` | pipeline/stage.go:21-60 | in undisturbed runs a pipeline of FIFO stages delivers the composed filter and map in source order |
| `Broadcasting.FaithfulIff` | pipeline/stage.go:228-245 | every processor of a broadcast is handed what the splitter read, under every schedule of the recycling of payloads, if and only if there is only one processor |
| `Broadcasting.QuietFaithfulIff` | crawler/payload.go:47-63 | while the payload is not recycled, every processor is handed what was read if and only if there are at most two or the raw content is empty, because cloning drains it |
| `Broadcasting.Overtaken` | crawler/payload.go:65-74 | a run in which the second processor is handed the body of another payload |
| `Broadcasting.Blanked` | crawler/payload.go:65-74 | a run in which the second processor is handed a payload of which recycling has left the link only |
| `Crawler.BroadcastMultiplies` | pipeline/stage.go:186-196 | a broadcast before the sink multiplies payloads by the number of its processors |
| `Crawler.CrawlCount` | crawler/crawler.go:49-103 | an undisturbed crawl brings exactly the links that reach the broadcast stage to the sink, each twice |
| `Crawler.CrawlResults` | crawler/crawler.go:49-62 | an undisturbed crawl brings to the sink what the graph updater and what the indexer make of each link that passes fetching, link and text extraction, each once |
| `Crawler.CrawlNeverOvercounts` | crawler/crawler.go:90-103 | whatever goes wrong, half of what the sink has consumed is at most the number of links that would reach the broadcast stage without failures |
| `Crawler.CountingSink.Consume` | crawler/crawler.go:94-97 | counts one more |
| `Crawler.Crawl` | crawler/crawler.go:68-72 | what a crawl reports, the sink's counter halved, is under every schedule at most the number of links that would reach the broadcast stage without failures, and exactly that without errors and cancellation |
| `LinkGraph.FoundIffThere` | inmem/graph.go:126-135 | scanning the list of the source finds an edge exactly if the graph has one |
| `LinkGraph.PutLinkKeeps` | inmem/graph.go:45-79 | upserting a link keeps the four maps consistent |
| `LinkGraph.PutEdgeKeeps` | inmem/graph.go:115-155 | upserting an edge keeps the four maps consistent, with at most one edge between two links |
| `LinkGraph.DropStaleKeeps` | inmem/graph.go:184-202 | sweeping stale edges keeps the four maps consistent, also for an unknown link |
| `LinkGraph.PutLinkIs` | inmem/graph.go:51-79 | seen from before and after: a known URL keeps its identifier and has a time that is at least the old and the given one, and one of them; a new URL has exactly the given time; all else is unchanged |
| `LinkGraph.PutEdgeIs` | inmem/graph.go:125-155 | seen from before and after: the edge between the two links has exactly the time of the call, it is the one there was or a new one at the end of its source's list; all else is unchanged |
| `LinkGraph.DropStaleIs` | inmem/graph.go:184-202 | seen from before and after: exactly the edges of the link with an earlier time are gone, its list keeps its order; all else is unchanged |
| `LinkGraph.EveryHistory` | inmem/graph.go:45-202 | after every sequence of operations the graph is consistent, and between any two points no link is lost, no identifier changes and no retrieval time decreases |
| `InMemoryGraph.Graph.UpsertLink` | inmem/graph.go:45-79 | on the records and maps: a known URL keeps its identifier and has the larger of the old and the given time, an unknown one is added with the given time; no other link changes; the caller's link gets the identifier |
| `InMemoryGraph.Graph.FindLink` | inmem/graph.go:82-94 | a fresh copy of the link, or an error exactly if there is none |
| `InMemoryGraph.Graph.UpsertEdge` | inmem/graph.go:115-155 | gives the edge between the links exactly the present time, renewing it or appending a new one, changes nothing else, and copies the stored data to the caller; between unknown links an error and no change |
| `InMemoryGraph.Graph.RemoveStaleEdges` | inmem/graph.go:184-202 | removes exactly the stale edges of the link and keeps the rest of its list in order |
| `InMemoryGraph.Graph.Links` | inmem/graph.go:98-112 | lists the record of each matching link of the range once, in any order |
| `InMemoryGraph.Graph.Edges` | inmem/graph.go:160-180 | lists the record of each matching edge whose source is in the range once, in any order |
| `GraphIterators.ReadLinks` | inmem/link.go:13-41 | going through the link iterator gives each matching link once, with the data the graph has for it |
| `GraphIterators.ReadEdges` | inmem/edge.go:13-41 | the same for the edge iterator |
| `GraphIterators.EdgeIterator.Edge` | inmem/edge.go:32-41 | a fresh copy of the current record, whatever has happened to the graph since the iterator was made |
| `Recrawl.FollowDoes` | crawler/graph_updater.go:62-72 | after the loop over the links of a page, each has a new edge, old edges are still there, and edges not of this page are untouched |
| `Recrawl.TargetsAfter` | crawler/graph_updater.go:35-81 | afterwards the page links to the links on it and to older targets that were linked no earlier than the mark, and to nothing else |
| `Recrawl.RecrawlExactIff` | crawler/graph_updater.go:58-78 | afterwards the page links to exactly the links on it if and only if each of its edges that is not older than the mark already led to a URL on the page |
| `Recrawl.InexactRecrawl` | crawler/graph_updater.go:61-78 | an edge whose time equals the mark stays, although the page does not link there any more |
| `Recrawl.RecrawlExact` | crawler/graph_updater.go:58-78 | in particular when the mark is later than all older edges of the page; links not to be followed gain no edge |
| `Recrawl.OthersSurvive` | crawler/graph_updater.go:45-78 | edges of other pages and all links survive unchanged, and all links of the page are stored |
| `Recrawl.RetrievalTimes` | crawler/graph_updater.go:39-66 | afterwards the page was retrieved at the larger of its old time and the time of the crawl, or at that time if it is new; every other known link has its old time; the only new links are those on the page, never retrieved |
| `Recrawl.FoundIsScanned` | crawler/graph_updater.go:51-65 | a link found for the first time, to be followed or not, is found by every scan for links to be crawled whose range has its identifier |
| `Recrawl.LinkTimes` | crawler/graph_updater.go:61-78 | afterwards the edge to each link on the page has the time of a visit to that link in this crawl, and every other edge of the page is an old one not older than the mark |
| `GraphUpdater.Process` | crawler/graph_updater.go:35-81 | the updater's loops over the in-memory graph do to its records exactly what the recrawl does to the graph as a value |
| `Uuids.LessIsNumeric` | partition/range.go:26 | byte-wise comparison of UUIDs is the order of their numbers |
| `Uuids.StringOrder` | inmem/graph.go:100-105 | canonical strings compare as the 128-bit numbers do |
| `Uuids.StringLength` | inmem/graph.go:100 | a canonical string has 36 characters |
| `Uuids.StringChars` | inmem/graph.go:100 | the canonical form character by character: two lower-case hexadecimal digits for each byte, a dash before the bytes 4, 6, 8 and 10 |
| `Uuids.MinBytesLength` | partition/range.go:46 | how many bytes the shortest encoding of a number has |
| `Partition.NewRange` | partition/range.go:24-56 | exactly when it succeeds, which error it gives otherwise, and what the splits are |
| `Partition.SplitIs` | partition/range.go:34-49 | the bounds between partitions are the multiples of one size, the largest of which the wanted number fits into the range with its end included |
| `Partition.ExtentsMeet` | partition/range.go:69-83 | an index below 0 or at least the number of partitions is an error; the partitions begin where the range does, meet end to end and end where the range does |
| `Partition.TilesIff` | partition/range.go:43-53 | every value of the range is in exactly one partition of a successful split, and every other value in none, if and only if there is one partition or the start is at most the partition size |
| `Partition.IncreasingIff` | partition/range.go:43-53 | no partition of a successful split is empty if and only if there is one or the start lies strictly below the partition size |
| `Partition.OffsetRangeDoesNotTile` | partition/range.go:45 | a range from the middle of the space to its end is accepted with two partitions and not tiled: the first ends before it starts and the second reaches below the start |
| `Partition.NewFullRange` | partition/range.go:60-66 | succeeds exactly for 1 to 256 partitions |
| `Partition.FullRangeTiles` | partition/range.go:60-83 | the extents increase, meet end to end from 0 to 2^128-1, and have the size 2^128 div n, the last one 2^128 div n + 2^128 mod n - 1 |
| `Partition.OnePartition` | partition/range.go:74-83 | if no partition ends before it starts, every value of the range is in exactly one partition, every other value in none |
| `Scan.PartitionedScan` | inmem/graph.go:98-180 | if no partition ends before it starts, every link and edge that a scan of the whole range finds is found by exactly one partition, each edge with its source |
| `Scan.FullRangeScan` | partition/range.go:60-83 | the same for the partitions of the full range, however many of the possible numbers of partitions there are |
| `Scan.LinksInIff` | inmem/graph.go:98-112 | a scan finds exactly the links with a number from the lower bound on and below the upper one, retrieved strictly before the given time |
| `Scan.EdgesInIff` | inmem/graph.go:160-180 | the same for edges, by their source and the time of their update |
| `Utf8.DecodeEncoded` | frontend/summarizer.go:169-173 | every scalar value decodes from its UTF-8 form, whatever follows |
| `Utf8.EncodeDecoded` | frontend/summarizer.go:169-173 | only UTF-8 forms of scalar values are decoded |
| `Utf8.DecodeStable` | frontend/summarizer.go:159-177 | more data does not change a decoded character |
| `Utf8.Layout` | frontend/summarizer.go:159-177 | the bytes of a scalar value as section 3 of RFC 3629 lays out their bits |
| `Sentence.ScanSentence` | frontend/summarizer.go:119-157 | in a partial buffer the sentence ends at the first place where a lower-case character, symbol, number or space is followed by the byte of '.', '!' or '?', that by a character that permits an end, and that by more data; if there is none, more data is asked for; at the end of the input all that is left is returned |
| `Sentence.SentenceStable` | frontend/summarizer.go:127-147 | a sentence found in a partial buffer is the one found in any longer buffer |
| `Sentence.ScanAll` | frontend/summarizer.go:61-63 | every chunking of a text yields the same sentences, those of the whole text |
| `Sentence.SentencesEnd` | frontend/summarizer.go:119-157 | on the bytes and the character classes: every sentence but the last ends at such a place, and no sentence runs past one |
| `Sentence.SentencesConcat` | frontend/summarizer.go:119-151 | the sentences of a text concatenate back to it |
| `Paging.Iterator.constructor` | bleve/indexer.go:131 | starts at the offset with the first page |
| `Paging.Search` | bleve/indexer.go:122-131 | an iterator at the offset, or an error exactly if the first page cannot be had |
| `Paging.Iterator.Next` | bleve/iterator.go:36-62 | the document at the current position and one position on; false without change when finished or closed; false with an error exactly when a page has been used up - every ten results - and the next cannot be had, or when the document cannot; never outside a page |
| `Paging.Iterator.Close` | bleve/iterator.go:25-32 | puts the position at the end, so that Next stays false |
| `Paging.Drain` | bleve/iterator.go:36-62 | from any offset, all pages together give the documents of the result list from there on, in order |
| `Paging.DocumentsAt` | bleve/iterator.go:36-62 | the documents from an offset on are each of the remaining results once, at its place |

## Left out

- Executor.Graph.Run: for runs that end, as a method here has to; ExecutorSpec.OutcomeIff says which do.
- Executor.Graph.RunSuperstep: one vertex after the other, in any order; interleaving within a superstep is what Schedule and Supersteps are about. Vertices never freeze under PageRank, so none is skipped; Engine has the general case.
- Executor.Graph.SendMessage: relaying to a remote graph; an unknown destination is an error.
- Executor.Graph.AddEdge: edge values and initial vertex values other than scores.
- WorkerPool.Barrier: which vertices are active or have messages is a parameter; Engine.Barrier states it of queues and activity. Closing the graph is not modelled.
- Accumulator.Float64Accumulator.Set: for a caller that nobody interferes with; so too Aggregate and Delta, whose interleavings are in AccumulatorMachine.
- Accumulator.Float64Accumulator.Aggregate: as for Set.
- Accumulator.Float64Accumulator.Delta: as for Set.
- Accumulator.IntAccumulator.Delta: as for Set.
- AccumulatorMachine.LedgerHolds: Aggregate and Delta only; a concurrent Set, which the program calls between supersteps, is modelled for a single caller, and so is the bit-wise comparison of float64 values (signed zero, NaN).
- Pipeline.ReturnsEmittedErrors: which errors are dropped when more are emitted than the error channel holds is not said; a dynamic worker pool is run once, as its tokens are drained for good.
- Flow.Conservation: for processors that are functions of the content of a payload; payload objects are values, as if a broadcast cloned them before handing out the first. Broadcasting says when that is so.
- Flow.TakenYield: the copies are taken to equal what the splitter read; see Broadcasting.
- Flow.NothingInvented: as for Flow.Conservation.
- Recrawl.RecrawlExact: for a single page at a time; interleaving of several updaters, which the graph's lock orders call by call, is not modelled.
- Sentence.ScanAll: for text within the scanner's buffer limit, from a reader that reports the end of the input separately from the last data, as the reader of strings does.
- Paging.Drain: for a result list that does not change between pages.
- Partition.NewRange: the number of partitions is an unbounded integer.
- Relayers and remote graphs: the remote side counts its own supersteps.
- Adding vertices or edges from a compute function: the maps are not synchronised there.
- Summary length and highlighting, link and text extraction, HTTP fetching, the bleve search itself, the Elasticsearch and CockroachDB stores, gRPC services and the service loops: other systems, or easy members that add no depth.
