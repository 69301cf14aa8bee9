# Proofs about AIOS: cluster, block manager, browser runtime, cache and workflow compiler

This project models the parts of AIOS whose correctness is not visible from any single function, and proves what they
promise. `dafny verify dfyconfig.toml` checks all of it. Nothing here executes the original program: the statements are
about the model, which follows the code line by line where it matters and says below where it abstracts.

## What is modelled

**Cluster scheduler** (`aios-cluster`). A coordinator talks to worker nodes over a lossy, reordering transport. The
state is a pair of a coordinator (`Coord`: node table, process tables, one pending request, three result slots,
checkpoints) and a world (`World`: packets in flight, the executors of all nodes, the clock, and histories of what was
sent, served and acknowledged, of the bytes each process has held, and of the checkpoints that have arrived). Anything
may happen between two steps of a blocking call: packets are delivered late, out of order, or dropped; time advances;
nodes announce themselves again; workers replace the state of what they host; other coordinators send requests. A
schedule of such events is an argument of every operation, so every theorem is for all schedules. `ClusterModel`
defines the steps, `ClusterInvariant` and `ClusterSteps` the invariant and its preservation, `ClusterCalls` the
blocking call, `ClusterOps`, `Migration`, `MigrationHome`, `Failover` and `LateCheckpoint` the operations,
`ClusterRuns` whole runs, `ClusterLedger` what the calls of a run report against what is tracked, and `Scheduler` the
object with its in-place updates and wait loops, each method proved equal to the corresponding function.

**Placement and framing.** `Placement` is node selection with the round-robin cursor; `Framing` is the length-prefixed
stream and its reader, for an arbitrary serializer that round-trips.

**Block dependencies** (`aios-block-mgr`). `Reachability` is the graph theory, `DependencyGraph` the edit operations with
the recursive cycle check, `LoadOrdering` the queue-based topological sort, `BlockRegistry` the graph built from
declared dependencies of any shape. Hash-map iteration order is arbitrary throughout.

**Compression cache** (`aios-compress`). `LruCache` gives the cache by recency, relates it to the stamped map of the
code, and compares caches of different sizes on the same trace.

**Browser runtime** (`aios-browser`). `Html` and `HtmlRoundTrip` are the page runtime's printer and fragment parser;
`FetchBridge` is the cooperative network bridge between page scripts and the engine, where page code is an arbitrary
function from steps to reactions, and `PageTally` the same page by counting alone; `UrlGlob` is user-script matching;
`BrowsingSession` is tabs with history stacks.

**Workflow compiler** (`aios-builder`). `EasyLang` parses workflow text, `EasyLangForm` says exactly which steps text can
express, `WorkflowCompiler` writes WebAssembly text, `WatText` and `WatModule` read such text back and run it, and
`WorkflowMeaning` says what the compiled steps log; `CompilerExamples` has texts that parse and yet miscompile.

## Where the code and its documentation differ

The model follows the code; these differences are theorems below.

- Migration is documented as excluding the source node when placement picks the destination. It is not excluded: once
  the copy runs, the migration is aborted if and only if placement prefers the source (`MigrationHome.AbortedIff`), which
  happens in a reachable cluster with another eligible node (`MigrationHome.SourceNotExcluded`). The copy is then killed;
  it stays behind, tracked, only if that kill fails (`Migration.MigrateSafe`).
- A respawn is documented as restoring the latest replicated checkpoint. It restores the newest one that had arrived when
  the lost process was given up (`Failover.TickSafe`); one that arrives while the respawn drains its inbox, before the
  spawn is sent, is stored and not used. `LateCheckpoint.SentIff` says exactly when that makes a difference, from the log
  of arrivals, and `LateCheckpoint.LateExample` is a tick of a reachable cluster in which it does.
- `url_matches` is documented as if the text before the first star were anchored at the start. It is not
  (`UrlGlob.UnanchoredExample`); it makes a difference exactly for the patterns `UrlGlob.AnchoredIff` excludes.
- `resolve_fetches` is documented as leaving no promise pending. Requests still queued when the rounds are used up stay
  pending (`FetchBridge.InsistentExample`), and so do requests of a batch that does not decode
  (`FetchBridge.GarbledExample`). From the page's reactions alone, `FetchBridge.DrainedIff` says exactly when for one
  drain, and `PageTally.PageDrainedIff` for a whole page.
- The fragment parser does not decode entities, so text with `&`, `<` or `>` does not come back
  (`HtmlRoundTrip.RoundTripIff`, `HtmlRoundTrip.EntityExample`).
- A visit is documented as recorded in the back history. It is not when the loaded page turns out to be the address the
  tab was already at (`BrowsingSession.GoThenBack`, `BrowsingSession.BounceExample`).
- The workflow compiler accepts prompts longer than the 256 bytes between two segments, labels that collide once
  sanitized, and prompts with control characters. The first damages prompts (`WorkflowMeaning.LengthsIff`,
  `WorkflowMeaning.ContentsIff`, `CompilerExamples.LongExample`), the second duplicates export names
  (`WorkflowMeaning.ExportsIff`, `CompilerExamples.NumberLabelExample`), the third gives text that is no WebAssembly text
  (`WorkflowCompiler.LoadIff`, `CompilerExamples.TabExample`).

## Model

| member | source | states |
|---|---|---|
| `Executor.PerformKeeps` | aios-cluster/src/executor.rs:60-144 | Every worker operation touches only the process it is about and never reuses a pid; a spawn starts with exactly the bytes it was sent, a kill removes its victim, a priority becomes the clamped one, and all but spawns succeed exactly for hosted processes. |
| `Executor.MockProcessExecutor.Spawn` | aios-cluster/src/executor.rs:60-78 | The object version issues the next pid and records process and state together. |
| `Executor.MockProcessExecutor.Kill` | aios-cluster/src/executor.rs:80-88 | Removes the pid from both maps, or reports an unknown pid and changes nothing. |
| `Executor.MockProcessExecutor.SetPriority` | aios-cluster/src/executor.rs:90-99 | No other process and no stored state changes, the priority ends at most at 4, and the executor stays consistent; an unknown pid is refused. |
| `Executor.MockProcessExecutor.Extract` | aios-cluster/src/executor.rs:125-131 | In a consistent executor, state is to be had of exactly the hosted processes. |
| `Executor.MockProcessExecutor.Restore` | aios-cluster/src/executor.rs:133-144 | Replaces one snapshot, for known pids only. |
| `ClusterInvariant.ServeKeeps` | aios-cluster/src/scheduler.rs:670-830 | A worker serving any request, including one from another coordinator, keeps the whole invariant and only adds to the history. |
| `ClusterSteps.DispatchKeeps` | aios-cluster/src/scheduler.rs:641-850 | Every incoming message, stale or fresh, keeps the invariant. |
| `ClusterSteps.CompleteBooks` | aios-cluster/src/scheduler.rs:891-943 | An acknowledgement never changes node, process or spec tables, whichever request it answers. |
| `ClusterSteps.EnvStepKeeps` | aios-cluster/src/scheduler.rs:641-850 | Any environment event keeps the invariant and the coordinator's books. |
| `ClusterSteps.RewriteKeeps` | aios-cluster/src/executor.rs:133-144 | A worker replacing the state of a process it hosts, at any moment, keeps the invariant. |
| `ClusterCalls.EnvStepOutstanding` | aios-cluster/src/scheduler.rs:891-943 | While a request is outstanding, its result slot is filled only by the answer to that very request, with what the worker replied. |
| `ClusterCalls.AwaitKeeps` | aios-cluster/src/scheduler.rs:398-410 | The same over the whole wait loop, for every schedule. |
| `ClusterCalls.CallAnswered` | aios-cluster/src/scheduler.rs:361-427 | A blocking call that returns a result returns the worker's reply to that request, served after it was sent. |
| `ClusterOps.SpawnSafe` | aios-cluster/src/scheduler.rs:361-427 | A successful spawn adds exactly one tracked process, never tracked before, started by its node for this coordinator with this spec and snapshot; a failed one changes no spec. |
| `ClusterOps.FreshlyBorn` | aios-cluster/src/scheduler.rs:413-424 | A process started for a request that had not been sent yet is in no table and has no checkpoint: a spawn never overwrites a tracked entry. |
| `ClusterOps.KillSafe` | aios-cluster/src/scheduler.rs:429-477 | A successful kill untracks exactly that process, which its node no longer hosts; a failed one untracks nothing. |
| `ClusterOps.SetPriorityAnswered` | aios-cluster/src/scheduler.rs:479-524 | Priority changes touch no table, and success means that the node left that process with the clamped priority when it served this request. |
| `ClusterOps.GetStateAnswered` | aios-cluster/src/scheduler.rs:567-607 | Returned bytes are what the process held at the step its node served this very request, however often workers replace state. |
| `Migration.MigrateSafe` | aios-cluster/src/scheduler.rs:526-563 | On success the copy is on another node with the same spec and was born with the bytes the source held when it served a get-state request of this migration, answered before the spawn was sent; the source was killed only after the copy was acknowledged. On failure the source is still tracked with its spec and at most one further copy exists. |
| `MigrationHome.AbortedIff` | aios-cluster/src/scheduler.rs:545-552 | With no target given and the copy started, the migration is aborted for want of another node if and only if placement prefers the source, by cursor position or by rank. |
| `MigrationHome.OnlySourceFails` | aios-cluster/src/scheduler.rs:545-552 | With no other eligible node a migration without a target never succeeds. |
| `MigrationHome.SourceNotExcluded` | aios-cluster/src/scheduler.rs:520-552 | A run from an initial state to a cluster where two nodes are eligible and the migration is aborted all the same. |
| `MigrationHome.PromptCall` | aios-cluster/src/scheduler.rs:361-427 | On a network that delivers at once, a call to a reachable node is answered with what its executor does. |
| `Failover.ReplayConserves` | aios-cluster/src/scheduler.rs:293-347 | Replaying respawn and loss events keeps the count of every spec, losses included. |
| `Failover.RespawnSafe` | aios-cluster/src/scheduler.rs:321-343 | One respawn accounts for its victim; a restored heir was born with exactly the newest usable checkpoint delivered before the victim was given up, and without one there was none usable. |
| `Failover.SavedIsNewest` | aios-cluster/src/scheduler.rs:754-762 | What the checkpoint table holds of a tracked process is the newest one delivered, if that is usable, and otherwise nothing. |
| `Failover.PruneKept` | aios-cluster/src/scheduler.rs:297-300 | Pruning drops exactly the checkpoints that are too old. |
| `Failover.RespawnAllSafe` | aios-cluster/src/scheduler.rs:315-344 | All victims of a node are accounted for once, in any order, whatever arrives in between, each respawn from the newest usable checkpoint. |
| `Failover.FailNodesSafe` | aios-cluster/src/scheduler.rs:293-347 | The same over all failed nodes of one tick, in any order. |
| `Failover.TickSafe` | aios-cluster/src/scheduler.rs:293-347 | A tick keeps the invariant; every respawn it reports is real and restored if and only if the newest checkpoint delivered before its victim was given up is usable, and then from exactly that one, bytes the victim once held; the spec table is the replay of its events; every process of a silent node is reported on. |
| `Failover.TickConserves` | aios-cluster/src/scheduler.rs:293-347 | Failover conserves work: for every spec, tracked before equals tracked after plus reported failed respawns. |
| `LateCheckpoint.SentIff` | aios-cluster/src/scheduler.rs:321-329 | What is restored is the newest usable checkpoint delivered before the spawn was sent if and only if, in the log of arrivals, none came during the drain, or the last that came repeats the bytes and the time of the last before the drain, which is usable. |
| `LateCheckpoint.LateIgnored` | aios-cluster/src/scheduler.rs:321-329 | From every good state with somewhere to respawn a hosted process there is a schedule in which the respawn ignores the checkpoint that arrives in its drain. |
| `LateCheckpoint.LateExample` | aios-cluster/src/scheduler.rs:293-347 | A run from an initial state, with respawning switched on, to a cluster whose tick finds a node silent and respawns its process without the newest usable checkpoint delivered before the spawn was sent. |
| `ClusterRuns.RunKeeps` | aios-cluster/src/scheduler.rs:282-607 | Every run of calls under every schedule keeps the invariant. |
| `ClusterRuns.ReachableSound` | aios-cluster/src/scheduler.rs:413-424 | In every reachable state tracked specs are a subset of listed processes, every listed pid was issued by its node below its next pid, and executor maps agree. |
| `ClusterLedger.PostedBoth` | aios-cluster/src/scheduler.rs:293-563 | Reports add up: nothing a later call returns has been killed or reported lost before. |
| `ClusterLedger.MigratePosted` | aios-cluster/src/scheduler.rs:526-563 | On every path a migration changes the table by exactly what its spawn returned and its kill confirmed. |
| `ClusterLedger.TickPosted` | aios-cluster/src/scheduler.rs:293-347 | A tick changes the table by exactly the heirs and the losses it reports, also when an heir is lost again in the same tick. |
| `ClusterLedger.TableExact` | aios-cluster/src/scheduler.rs:282-607 | After every run the table is exactly what spawns returned, less what kills confirmed and ticks reported lost; a process left running untracked was asked for and either never returned by its spawn or reported lost. |
| `Scheduler.DistributedScheduler.DispatchIncoming` | aios-cluster/src/scheduler.rs:641-850 | The in-place message handler computes the step function. |
| `Scheduler.DistributedScheduler.CompleteSpawn` | aios-cluster/src/scheduler.rs:891-907 | In place: fills the spawn slot only for the pending request. |
| `Scheduler.DistributedScheduler.CompleteCtrl` | aios-cluster/src/scheduler.rs:909-922 | In place: fills the control slot only for the pending request. |
| `Scheduler.DistributedScheduler.CompleteGetState` | aios-cluster/src/scheduler.rs:924-943 | In place: fills the state slot only for the pending request. |
| `Scheduler.DistributedScheduler.RegisterPeer` | aios-cluster/src/scheduler.rs:852-882 | In place: a greeting updates identity and contact time but not load. |
| `Scheduler.DistributedScheduler.ProcessEvents` | aios-cluster/src/scheduler.rs:282-291 | The drain loop plays the events in order. |
| `Scheduler.DistributedScheduler.SelectNode` | aios-cluster/src/scheduler.rs:609-639 | The in-place selection computes the placement function and its cursor. |
| `Scheduler.DistributedScheduler.WaitFor` | aios-cluster/src/scheduler.rs:398-409 | The wait loop stops at the first result or at the end of the schedule. |
| `Scheduler.DistributedScheduler.SpawnWithState` | aios-cluster/src/scheduler.rs:361-427 | The method computes the spawn operation the theorems are about. |
| `Scheduler.DistributedScheduler.KillProcess` | aios-cluster/src/scheduler.rs:429-477 | The method computes the kill operation. |
| `Scheduler.DistributedScheduler.ChangePriority` | aios-cluster/src/scheduler.rs:479-524 | The method computes the priority operation. |
| `Scheduler.DistributedScheduler.FetchState` | aios-cluster/src/scheduler.rs:567-607 | The method computes the state request. |
| `Scheduler.DistributedScheduler.Migrate` | aios-cluster/src/scheduler.rs:526-563 | The method computes the migration. |
| `Scheduler.DistributedScheduler.RespawnVictims` | aios-cluster/src/scheduler.rs:315-344 | The loop visits every victim exactly once, in some order. |
| `Scheduler.DistributedScheduler.DetectFailures` | aios-cluster/src/scheduler.rs:296-311 | Prunes expired checkpoints and flips exactly the silent nodes. |
| `Scheduler.DistributedScheduler.FailOverAll` | aios-cluster/src/scheduler.rs:312-345 | The loop walks every failed node exactly once, in some order. |
| `Scheduler.DistributedScheduler.Tick` | aios-cluster/src/scheduler.rs:293-347 | The tick computes the tick operation for some order of visits, hence conserves work and reports only respawns from the newest usable checkpoints. |
| `Placement.Select` | aios-cluster/src/scheduler.rs:609-639 | A node is picked exactly when one is eligible, and it is online, in tier range and not the coordinator. |
| `Placement.SelectLeast` | aios-cluster/src/scheduler.rs:628-637 | The load and tier strategies pick the least, the lowest id among equals. |
| `Placement.PickedIff` | aios-cluster/src/scheduler.rs:609-639 | Exactly which node is picked: the one with as many eligible ids below it as the cursor says, or the one with the least rank and id. |
| `Placement.CycleShare` | aios-cluster/src/scheduler.rs:609-627 | How often each position of a fixed list comes up in m picks. |
| `Placement.CycleFair` | aios-cluster/src/scheduler.rs:609-627 | Each member of the list gets the floor or the ceiling of its even share. |
| `Placement.RoundRobinFair` | aios-cluster/src/scheduler.rs:609-627 | The same for real selections from any starting cursor, with every pick eligible. |
| `Framing.LittleEndianRoundTrip` | aios-cluster/src/protocol.rs:83-103 | The length header keeps the length modulo 2^32. |
| `Framing.ReadFrames` | aios-cluster/src/transport.rs:184-215 | The reader's loop computes the stream-reading function. |
| `Framing.ReadCut` | aios-cluster/src/transport.rs:184-215 | A stream cut at any byte yields exactly the messages whose frames are complete. |
| `Framing.StreamRoundTrip` | aios-cluster/src/protocol.rs:83-103 | Reading the concatenated frames yields the messages if and only if no body exceeds 64 MiB. |
| `Reachability.AddEdgeAcyclic` | aios-block-mgr/src/dependency.rs:39-61 | A new edge keeps an acyclic graph acyclic when its source cannot be reached from its target. |
| `Reachability.StuckCyclic` | aios-block-mgr/src/dependency.rs:129-137 | Blocks that all wait for one another contain a cycle. |
| `Reachability.OrderedAcyclic` | aios-block-mgr/src/dependency.rs:92-139 | A graph with a load order is acyclic. |
| `DependencyGraph.EditsSound` | aios-block-mgr/src/dependency.rs:35-160 | Every sequence of additions and removals keeps the graph acyclic, edge-closed and without duplicates. |
| `DependencyGraph.ReversedUnloads` | aios-block-mgr/src/dependency.rs:141-145 | The reverse of a load order unloads every dependent first. |
| `DependencyGraph.DependencyGraph.WouldCreateCycle` | aios-block-mgr/src/dependency.rs:63-78 | The recursive search answers reachability exactly, and terminates on the unvisited nodes. |
| `DependencyGraph.DependencyGraph.AddDependency` | aios-block-mgr/src/dependency.rs:39-61 | Refuses an edge exactly when it would close a cycle, and otherwise adds it and keeps the graph sound. |
| `DependencyGraph.DependencyGraph.AddBlock` | aios-block-mgr/src/dependency.rs:35-37 | Adds a block without dependencies, or leaves a known one alone. |
| `DependencyGraph.DependencyGraph.RemoveBlock` | aios-block-mgr/src/dependency.rs:155-160 | Removes a block and every edge to it. |
| `DependencyGraph.DependencyGraph.LoadOrder` | aios-block-mgr/src/dependency.rs:92-139 | On a sound graph always succeeds, with every block once and after its dependencies. |
| `DependencyGraph.DependencyGraph.UnloadOrder` | aios-block-mgr/src/dependency.rs:141-145 | On a sound graph always succeeds, with every dependent first. |
| `LoadOrdering.Prepare` | aios-block-mgr/src/dependency.rs:92-104 | In-degrees and reverse lists, for any iteration order. |
| `LoadOrdering.CountDown` | aios-block-mgr/src/dependency.rs:116-126 | Taking a block lowers its dependents' counts and queues exactly those that reach zero. |
| `LoadOrdering.FindLoadOrder` | aios-block-mgr/src/dependency.rs:92-139 | Succeeds if and only if the graph is acyclic, with a load order; otherwise reports the blocks left over. |
| `BlockRegistry.NothingDropped` | aios-block-mgr/src/registry.rs:170-181 | When the declared dependencies are acyclic, none is discarded. |
| `BlockRegistry.BlockRegistry.BuildGraph` | aios-block-mgr/src/registry.rs:170-181 | For any declarations and order: acyclic, every block present, only declared edges, and no discarded edge could have been added. |
| `BlockRegistry.BlockRegistry.BootOrder` | aios-gui/src/app.rs:724-767 | A load order of the built graph always exists. |
| `BlockRegistry.LatestDeclaration` | aios-block-mgr/src/registry.rs:166-181 | Graphs built before and after a redeclaration: the new one shows of that block only the new list and every block on it that does not lead back; an edge of another block is lost or gained only where the graph without it leads back over an edge that the other graph lacks. |
| `BlockRegistry.OthersKeep` | aios-block-mgr/src/registry.rs:166-181 | If neither set of declarations has a cycle, every other block keeps exactly its edges. |
| `LruCache.HoldsMostRecent` | aios-compress/src/cache.rs:36-79 | After any trace the cache holds exactly the max(1, capacity) most recently touched keys, or all if fewer. |
| `LruCache.HoldsLastValue` | aios-compress/src/cache.rs:36-79 | Each with its last inserted value. |
| `LruCache.RunsNested` | aios-compress/src/cache.rs:36-74 | On one trace the smaller cache's recency list is the larger one's, restricted to what it holds. |
| `LruCache.Inclusion` | aios-compress/src/cache.rs:36-74 | A larger cache contains every entry of a smaller one, with the same value. |
| `LruCache.Restamped` | aios-compress/src/cache.rs:36-74 | A stamp above the counter moves its key to the front and keeps stamps distinct and bounded. |
| `LruCache.LeastIsLast` | aios-compress/src/cache.rs:51-60 | The least stamp belongs to the least recently used key. |
| `LruCache.CompressionCache.Get` | aios-compress/src/cache.rs:36-46 | In place: a hit refreshes, a miss changes no entry. |
| `LruCache.CompressionCache.InsertEntry` | aios-compress/src/cache.rs:48-75 | In place: evicts the least recent key exactly when a new key meets a full cache. |
| `LruCache.CompressionCache.ClearAll` | aios-compress/src/cache.rs:77-79 | In place: empties the cache. |
| `UrlGlob.GreedyIsGlob` | aios-browser/src/script.rs:325-347 | The greedy left-to-right search finds a match if and only if some placement of the parts exists. |
| `UrlGlob.ContainsIsGlob` | aios-browser/src/script.rs:322-324 | A pattern without star is a glob with a star on both sides. |
| `UrlGlob.SplitJoin` | aios-browser/src/script.rs:325 | Splitting at stars and joining gives the pattern back, with no star in a part. |
| `UrlGlob.UrlMatches` | aios-browser/src/script.rs:318-348 | The whole function, both branches, against the glob. |
| `UrlGlob.AnchoredIff` | aios-browser/src/script.rs:313-348 | For a pattern with a star, anchoring its start would change nothing if and only if it starts with the star. |
| `UrlGlob.UnanchoredExample` | aios-browser/src/script.rs:313-348 | A pattern that matches an address it does not start. |
| `Html.ParseFragment` | aios-browser/src/script_prelude.js:188-255 | The index-and-stack loop computes the parsing function. |
| `HtmlRoundTrip.AttrsRoundTrip` | aios-browser/src/script_prelude.js:176-186 | Printed attributes parse to their names with escaped values. |
| `HtmlRoundTrip.OpenRead` | aios-browser/src/script_prelude.js:222-238 | A printed opening tag is read as itself, whatever its attribute values contain. |
| `HtmlRoundTrip.CloseRead` | aios-browser/src/script_prelude.js:212-221 | A printed closing tag closes the innermost element of that name. |
| `HtmlRoundTrip.RawEnd` | aios-browser/src/script_prelude.js:241-252 | Raw text ends exactly at the closing tag that was printed after it. |
| `HtmlRoundTrip.ParseNodes` | aios-browser/src/script_prelude.js:160-255 | A printed forest inside any open elements parses to its normal form, and parsing goes on after it. |
| `HtmlRoundTrip.ParsePrinted` | aios-browser/src/script_prelude.js:160-255 | For every forest with plain names in which no raw-text element contains its own closing tag, parse after print is the normal form: escaped once, text merged, unprinted content gone. |
| `HtmlRoundTrip.NormalFixed` | aios-browser/src/script_prelude.js:157-186 | The normal form changes nothing if and only if the forest is normal. |
| `HtmlRoundTrip.RoundTripIff` | aios-browser/src/script_prelude.js:160-255 | For the same forests, print and parse give a forest back if and only if it is normal. |
| `HtmlRoundTrip.EntityExample` | aios-browser/src/script_prelude.js:157-158 | An ampersand comes back as an entity. |
| `FetchBridge.AskAllFrame` | aios-browser/src/script_prelude.js:654-664 | Parking requests numbers them consecutively and changes nothing else. |
| `FetchBridge.ServeKeeps` | aios-browser/src/engine.rs:373-398 | Settling one drained request, whatever its callbacks do, keeps the books. |
| `FetchBridge.ResolveKeeps` | aios-browser/src/engine.rs:356-404 | Draining keeps the books: pending is exactly queued plus lost, and settlements come in order of issue, one each. |
| `FetchBridge.DynamicKeeps` | aios-browser/src/engine.rs:410-478 | Dynamic rounds keep the books within 8 rounds and 20 scripts. |
| `FetchBridge.SettleKeeps` | aios-browser/src/engine.rs:332-350 | Settling keeps the books; the loops end for every page. |
| `FetchBridge.PageSound` | aios-browser/src/engine.rs:258-303 | A whole page, for all page code: at most 32 network calls, 20 dynamic scripts and 8 rounds, each drained request settled exactly once in order, refusals only over the cap or without a page address. |
| `FetchBridge.NothingParked` | aios-browser/src/engine.rs:356-404 | Between rounds nothing is pending if and only if the queue is empty and nothing was lost. |
| `FetchBridge.DrainedIff` | aios-browser/src/engine.rs:352-404 | A drain leaves no promise pending if and only if, counting the page's reactions step by step, every batch decodes and the callbacks queue nothing more within its rounds. |
| `PageTally.PageOf` | aios-browser/src/engine.rs:235-478 | A whole page counts as its tally does: steps, queue length, fetches, rounds, scripts, and whether anything was lost. |
| `PageTally.PageDrainedIff` | aios-browser/src/engine.rs:235-478 | A page ends with every promise settled if and only if, counting its reactions over the four settles, no batch with something in it fails to decode and nothing is left queued. |
| `FetchBridge.InsistentExample` | aios-browser/src/engine.rs:352-404 | A page whose callbacks always ask again ends with a pending promise. |
| `FetchBridge.GarbledExample` | aios-browser/src/engine.rs:365-372 | A page with one undecodable batch ends with that promise pending. |
| `FetchBridge.PageScripts.Fetch` | aios-browser/src/script_prelude.js:654-664 | In place: one request parked and queued. |
| `FetchBridge.PageScripts.NetResolve` | aios-browser/src/script_prelude.js:636-645 | In place: settles a parked id once, ignores others. |
| `FetchBridge.PageScripts.ServeRequests` | aios-browser/src/engine.rs:356-404 | The drain loop computes the drain function. |
| `FetchBridge.PageScripts.RunDynamicRounds` | aios-browser/src/engine.rs:410-478 | The round loop computes the round function. |
| `FetchBridge.PageScripts.SettlePage` | aios-browser/src/engine.rs:332-350 | The settle loop computes the settle function. |
| `FetchBridge.PageScripts.Execute` | aios-browser/src/engine.rs:235-303 | A page from first script to last settle satisfies the whole-page theorem. |
| `BrowsingSession.TimelinesKept` | aios-browser/src/session.rs:130-193 | Any run of back, forward, reload and tab switches, loads failing or not, keeps every tab's timeline. |
| `BrowsingSession.WalkShows` | aios-browser/src/session.rs:130-182 | The two stacks are a cursor on a fixed timeline: any run is a walk that stops at its ends, other tabs untouched. |
| `BrowsingSession.TabIsCursor` | aios-browser/src/session.rs:130-151 | Every tab that has been somewhere is such a cursor. |
| `BrowsingSession.BackForwardIff` | aios-browser/src/session.rs:130-151 | Back then forward restores the stacks if and only if the tab has a current address. |
| `BrowsingSession.GoThenBack` | aios-browser/src/session.rs:109-125 | When back after a visit leads to where the tab was, exactly. |
| `BrowsingSession.BounceExample` | aios-browser/src/session.rs:107-125 | From one address, a visit that lands there again leaves nothing to go back to. |
| `BrowsingSession.CloseKeepsActive` | aios-browser/src/session.rs:222-236 | Closing another tab keeps the same tab in front; which tab follows a closed front tab; the others keep their order. |
| `BrowsingSession.Run` | aios-browser/src/session.rs:109-338 | Every run of commands keeps at least one tab and a valid active index. |
| `BrowsingSession.RestoreSnapshot` | aios-browser/src/session.rs:306-338 | Restoring a snapshot reproduces all stacks, bookmarks and the active tab. |
| `BrowsingSession.SnapshotRestore` | aios-browser/src/session.rs:306-338 | The other way round exactly for snapshots with a valid active tab. |
| `BrowsingSession.BrowserSession.GoTo` | aios-browser/src/session.rs:109-125 | In place: a visit, or no change when the load fails. |
| `BrowsingSession.BrowserSession.GoBack` | aios-browser/src/session.rs:130-139 | In place: the stacks move even when the load fails. |
| `BrowsingSession.BrowserSession.GoForward` | aios-browser/src/session.rs:143-151 | In place: the same forward. |
| `BrowsingSession.BrowserSession.DropTab` | aios-browser/src/session.rs:222-236 | In place: closes a tab, never the last one. |
| `BrowsingSession.BrowserSession.Load` | aios-browser/src/session.rs:320-338 | In place: any snapshot gives a valid session. |
| `WatText.Utf8Injective` | aios-builder/src/compiler.rs:39-54 | The bytes logged for a prompt determine it. |
| `WatText.EscapedBody` | aios-builder/src/compiler.rs:39-43 | Reading a string literal undoes the escaping if and only if the text has no control character. |
| `WatText.LexSpelled` | aios-builder/src/compiler.rs:25-66 | Text written token by token is read back as those tokens, or not at all when some prompt cannot be a literal. |
| `WatModule.ModuleRead` | aios-builder/src/compiler.rs:25-66 | Module fields written as tokens are read back as those fields. |
| `WorkflowCompiler.GenerateWat` | aios-builder/src/compiler.rs:25-66 | The generator's appending loop writes the text the theorems are about. |
| `WorkflowCompiler.LoadIff` | aios-builder/src/compiler.rs:20-66 | The generated text reads back as the intended module if and only if no prompt has a control character. |
| `WorkflowMeaning.InstantiatesIff` | aios-builder/src/compiler.rs:34-43 | The compiled module can be instantiated if and only if every segment fits the page. |
| `WorkflowMeaning.LengthsIff` | aios-builder/src/compiler.rs:34-54 | Prompt lengths are safe for all contents if and only if every prompt but the last has at most 256 bytes. |
| `WorkflowMeaning.OverrunLost` | aios-builder/src/compiler.rs:34-54 | A longer prompt with a step after it: contents of the same lengths for which its step logs something else. |
| `WorkflowMeaning.ContentsIff` | aios-builder/src/compiler.rs:34-54 | A given workflow logs all its prompts if and only if, at every position of every prompt, the last segment laid over it has the same byte. |
| `WorkflowMeaning.ExportsIff` | aios-builder/src/compiler.rs:45-62 | Export names are distinct if and only if sanitized labels are, none is a step number and none is `count`. |
| `WorkflowMeaning.MeaningPreserved` | aios-builder/src/compiler.rs:25-66 | Under these conditions every step, called by number or by label in the module read from the text, logs exactly its prompt and returns 0. |
| `EasyLang.ParseWorkflow` | aios-builder/src/easylang.rs:18-43 | The line loop computes the parsing function. |
| `EasyLang.MakeLabel` | aios-builder/src/easylang.rs:72-88 | The character loop computes the automatic label. |
| `EasyLang.ErrorsExact` | aios-builder/src/easylang.rs:18-66 | Errors name, in order, exactly the lines with a space before their first colon that are neither blank nor comments. |
| `EasyLangForm.LineParses` | aios-builder/src/easylang.rs:45-70 | A canonical step's labelled line parses to that step. |
| `EasyLangForm.StepsCanonical` | aios-builder/src/easylang.rs:18-88 | Whatever text is parsed, its steps are canonical. |
| `EasyLangForm.RenderIff` | aios-builder/src/easylang.rs:18-88 | Labelled lines parse to the steps they were written for if and only if every step is canonical. |
| `EasyLangForm.ParseRendered` | aios-builder/src/easylang.rs:18-88 | Every text that parses means the same as the labelled lines of its steps. |
| `CompilerExamples.NumberLabelExample` | aios-builder/src/compiler.rs:45-47 | A text that parses, whose label duplicates an export name. |
| `CompilerExamples.TabExample` | aios-builder/src/compiler.rs:39-43 | A text that parses, whose prompt makes the output unreadable. |
| `CompilerExamples.LongExample` | aios-builder/src/compiler.rs:38-54 | A text that parses and fits, whose first step does not log its prompt. |

## Left out

- Transport, threads, sleeps, mutexes and wall clocks: replaced by schedules of events and an abstract clock; a timeout is the end of a schedule.
- Dishonest peers, two nodes behind one address, and a coordinator that restarts with its old address: the model has one directory from addresses to nodes, and request numbers start at 1 once.
- Wrap-around of the 64-bit pids, request numbers, cursors and cache stamps: they are unbounded.
- Error texts and the 100-entry event log of the scheduler; the display name given to a node first heard of through its metrics, and the load a node reports about itself.
- `SchedulerProcessExecutor` (`aios-cluster/src/executor.rs:146-260`): it delegates to another crate.
- Reclaiming a process whose spawn was acknowledged after the deadline: the code leaves it running untracked, and the model has it; `ClusterLedger.TableExact` says that nothing else is left so without a report.
- Placement.SelectLeast: load fractions are exact reals, not 64-bit floats.
- Framing.StreamRoundTrip: bodies of 4 GiB and more, whose header wraps around, are outside it.
- HtmlRoundTrip.RoundTripIff: elements called `document` or starting with `#`, which the printer treats specially, names with quotes, spaces or upper-case letters, and raw-text elements that contain their own closing tag are outside it; case folding is ASCII only, and characters are code points rather than UTF-16 units.
- Selector queries of the page runtime, DOM events and timers: no specification of the standard's holds of the selector walk.
- Page code that reaches into the bridge object itself instead of using `fetch` and `XMLHttpRequest`.
- The contents of network requests and responses, and the fetching of external scripts: a reaction says what page code asks and whether a source could be had.
- `normalize_url` and bookmark editing: `BrowsingSession` takes addresses already normalized.
- Comments, block comments and `\u` escapes of WebAssembly text: the generator writes none, and the reader has none.
- The host's answer to a log call is taken to be 0; it is dropped at once.
- WorkflowMeaning.MeaningPreserved: the tables of Unicode letters and digits are a parameter; only that they exclude white space is ever used.
- Signature checks, capabilities, file discovery, hot swapping, compression itself, search, the hardware layer, user interfaces: input and output, cryptography, or easy members.
