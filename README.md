# native-sfc core, modelled in Dafny

native-sfc loads single-file components straight into the browser. This
project models three parts of it and proves properties about them.

- **The reactive engine** behind `signal`, `computed`, `effect`, `effectScope`
  and `untrack`. Its implementation file (`src/signals.ts`) is not part of this
  model. Its behaviour is fixed here by the contract that `src/signals.test.ts`
  asserts step by step. The engine is an arena of nodes addressed by integer
  ids. Each node has dependency and subscriber lists. A computed has a dirty
  flag and a cached value, and an effect has an active flag. There is a
  duplicate-free pending queue, a list of effect scopes, and a failure log for
  effects that throw during a flush. The tracking stack, the set of computeds
  being evaluated (used to detect cycles) and the stack of scope callbacks
  form an explicit context (`Ctx`).
  - Module `Signals` gives the semantics as functions on a `State` value.
  - Class `SignalRuntime.Runtime` holds that state in fields. Its methods
    update the fields in place. The engine's loops (the propagation worklist,
    the flush over the queue snapshot, unsubscribing an effect, stopping a
    scope's effects) are `while` loops proved equal to the functions.
  - Modules `SignalInvariants`, `SignalCoherence`, `SignalPropagation`,
    `SignalEffects`, `SignalLive` and `SignalApi` prove the general laws.
    Examples: the structural invariant `Wf`, which every operation keeps; a
    clean computed caches the meaning (`Den`) of its evaluator; a write
    dirties and queues exactly what depends on the written signal; a flush
    re-runs each queued effect exactly once. The laws about meanings and
    about what a write reaches hold for engines satisfying `Live`. In such an
    engine computeds are acyclic and their bodies neither untrack, write nor
    throw, and effects neither write nor throw.
  - `SignalScenarios` derives each test of the suite from those laws, on a
    well-behaved engine of its own (see "Left out"). The tests of error
    paths (the cycle, the throwing scope callback) are computed on concrete
    states.
  - Evaluator bodies are scripts (`Expr`): literals, getter calls, `+`, `*`, a
    conditional on a value, `untrack`, a setter call, and a throw. An effect
    body (`Job`) is such a script followed by the nested effects it creates.
    The microtask flush is the explicit step `Flush`.
- **The module-specifier rewriter** (`src/rewriter.ts`, module `Rewriter`):
  - `isBrowserUrl`;
  - the mapping of one specifier;
  - the reverse-order splice loop of `rewriteModule`, proved equal to a
    front-to-back rewrite;
  - `getImporterUrl`;
  - the `blobMap` update of `esm`.

  The lexer's import ranges, `new URL(spec, base).href`, the parsed stack
  frames, the configurable post-processing hook and the blob URL are
  parameters.
- **The template binder's pure parts** (`src/template.ts`, module `Template`):
  - `toCamelCase`;
  - the `.`/`:`/`@` attribute dispatch;
  - the attribute loop over a snapshot;
  - `reactiveNodes` creating its effects inside one effect scope of the engine.

Design decisions:
- Values are unbounded integers. Conditions treat a nonzero value as true.
- Reading an id that is not a signal or computed gives `Err(NotCallable)`.
  This stands for JavaScript's error on calling something that is not a getter.
- Dirty propagation is "always propagate while dirty". A computed re-evaluated
  to an unchanged value still leaves its subscribers dirty or queued. An
  already-dirty computed ends the propagation path.
- A computed whose evaluator fails drops its partial dependencies and stays
  dirty, so a later read retries.
- An effect whose body fails keeps the dependencies it read before failing.
  It stays subscribed to them, so a later change to one of them re-runs it.
- During a flush, an effect that throws is logged in `failures` and the batch
  goes on. On an effect's first run, the error is returned to the caller.
- Nested effects are not torn down when their parent re-runs.
  `NestedEffects` proves the 1 → 2 → 4 inner run count of the test.

## Model

| member | source | states |
|---|---|---|
| `Signals.Insert` | src/signals.test.ts:588-606 | Adding to the queue or to an edge list has set semantics: the result holds exactly the old elements plus the new one, and adding a present element changes nothing |
| `Signals.Without` | src/signals.test.ts:174-196 | Removing an id keeps exactly the other elements, and removing an absent id changes nothing |
| `Signals.Track` | src/signals.test.ts:103-128 | A getter call registering a dependency changes only edges: no effect, scope, failure or queue entry changes |
| `Signals.Detach` | src/signals.test.ts:130-172 | Unsubscribing a reader from a list of sources changes only subscriber lists |
| `Signals.Unlink` | src/signals.test.ts:130-172 | Before re-running, a reader's dependency list is empty and nothing outside the edges changes |
| `Signals.Walk` | src/signals.test.ts:351-374 | The propagation walk changes only dirty flags, the queue and the flush request |
| `Signals.Propagate` | src/signals.test.ts:351-374 | Propagation never runs an effect or changes its lifecycle |
| `Signals.Write` | src/signals.test.ts:9-20 | A setter call never runs an effect, changes a scope or logs a failure; the queue only grows |
| `Signals.Call` | src/signals.test.ts:286-327 | A getter call, including re-evaluation of dirty computeds, never runs an effect, changes a scope or shrinks the queue |
| `Signals.Eval` | src/signals.test.ts:130-172 | Evaluating a body has the same frame as `Call` |
| `Signals.RunJob` | src/signals.test.ts:198-229 | An effect's re-evaluation only appends nodes, keeps node kinds, and only appends effects to scopes; it logs no failure |
| `Signals.Spawn` | src/signals.test.ts:81-101 | Creating an effect allocates at least one node and keeps the frame of `RunJob` |
| `Signals.CreateAll` | src/signals.test.ts:471-498 | Creating a list of effects keeps the frame of `RunJob` |
| `Signals.StopAll` | src/signals.test.ts:471-498 | Stopping effects keeps the arena size and the scopes |
| `Signals.RunEntry` | src/signals.test.ts:588-606 | One flush entry only grows the state and only adds failures |
| `Signals.RunEntryLog` | src/signals.test.ts:588-606 | A flush entry whose run fails appends exactly `Failure(x, error)` to the log; an entry that succeeds or is skipped appends nothing |
| `Signals.RunBatch` | src/signals.test.ts:588-606 | A flush batch only grows the state and only adds failures |
| `Signals.Flush` | src/signals.test.ts:608-625 | The flush only grows the state and only adds failures |
| `Signals.FlushSingle` | src/signals.test.ts:588-606 | A flush of a one-entry queue is the run of that entry on the cleared queue |
| `SignalRuntime.Runtime.constructor` | src/signals.test.ts:7-8 | A new runtime is the empty engine |
| `SignalRuntime.Runtime.Signal` | src/signals.test.ts:9-12 | `signal(v)` appends a signal holding `v` and returns its id |
| `SignalRuntime.Runtime.Computed` | src/signals.test.ts:301-311 | `computed(f)` appends a dirty, never-evaluated computed |
| `SignalRuntime.Runtime.Read` | src/signals.test.ts:286-299 | A getter call leaves the runtime in the state `Read` prescribes and returns its result |
| `SignalRuntime.Runtime.Notify` | src/signals.test.ts:351-374 | The worklist loop with a visited set leaves the runtime in the state `Walk` prescribes |
| `SignalRuntime.Runtime.Set` | src/signals.test.ts:62-77 | The setter stores a changed value and propagates it; an equal value or a non-signal changes nothing |
| `SignalRuntime.Runtime.Effect` | src/signals.test.ts:81-92 | `effect(job)` allocates the next id and runs it as `NewEffect` prescribes |
| `SignalRuntime.Runtime.Flush` | src/signals.test.ts:588-625 | The loop over the queue snapshot ends in the state `Flush` prescribes |
| `SignalRuntime.Runtime.RunQueued` | src/signals.test.ts:588-606 | One snapshot entry re-runs an active effect and logs its failure |
| `SignalRuntime.Runtime.Unsubscribe` | src/signals.test.ts:130-172 | The loop over the dependencies ends in the state `Unlink` prescribes |
| `SignalRuntime.Runtime.Stop` | src/signals.test.ts:174-196 | `stop()` ends in the state `Stop` prescribes |
| `SignalRuntime.Runtime.StopScope` | src/signals.test.ts:544-567 | The loop over the owned effects ends in the state `StopScope` prescribes |
| `SignalRuntime.Runtime.EffectScope` | src/signals.test.ts:471-498 | `effectScope(cb)` appends the next scope and runs the callback as `NewScope` prescribes |
| `SignalInvariants.InitialWf` | src/signals.test.ts:7-8 | The empty engine satisfies the structural invariant |
| `SignalInvariants.NewSignalWf` | src/signals.test.ts:9-12 | `signal` keeps the structural invariant: edges are mirrored and point at sources and readers, and the queue holds distinct active effects |
| `SignalInvariants.NewComputedWf` | src/signals.test.ts:286-290 | `computed` keeps the structural invariant |
| `SignalInvariants.ReadWf` | src/signals.test.ts:286-299 | A getter call keeps the structural invariant |
| `SignalInvariants.WriteWf` | src/signals.test.ts:9-20 | A setter call keeps the structural invariant |
| `SignalInvariants.NewEffectWf` | src/signals.test.ts:81-92 | `effect` keeps the structural invariant |
| `SignalInvariants.FlushWf` | src/signals.test.ts:588-625 | A flush keeps the structural invariant |
| `SignalInvariants.StopWf` | src/signals.test.ts:174-196 | `stop()` keeps the structural invariant |
| `SignalInvariants.StopScopeWf` | src/signals.test.ts:544-567 | A scope's stop keeps the structural invariant |
| `SignalInvariants.NewScopeWf` | src/signals.test.ts:471-498 | `effectScope` keeps the structural invariant |
| `SignalCoherence.CallDen` | src/signals.test.ts:286-299 | A getter call on a ranked, coherent engine returns the meaning of the getter over the current signal values, and keeps every clean cache equal to its meaning |
| `SignalCoherence.EvalDen` | src/signals.test.ts:394-404 | Evaluating a body returns its meaning and keeps caches coherent |
| `SignalCoherence.CallRuns` | src/signals.test.ts:301-327 | A getter call re-evaluates exactly the dirty computeds the read reaches, each once, and leaves them clean |
| `SignalCoherence.CallCovered` | src/signals.test.ts:406-412 | After a top-level read, every clean computed depends on exactly what its evaluator reads |
| `SignalPropagation.WalkDirty` | src/signals.test.ts:351-374 | The walk dirties exactly the computeds it newly visits |
| `SignalPropagation.WalkQueue` | src/signals.test.ts:588-606 | The walk appends exactly the active effects it newly visits to the queue and then requests a flush |
| `SignalPropagation.WalkLeast` | src/signals.test.ts:351-374 | The walk visits no more than any set closed under its rule, so each node is processed at most once |
| `SignalPropagation.DenLocal` | src/signals.test.ts:130-172 | The meaning and the tracked reads of a body depend only on the values it reads |
| `SignalPropagation.WriteCoherent` | src/signals.test.ts:394-404 | A write keeps every clean cache equal to its meaning and every clean computed's dependencies equal to what it reads |
| `SignalEffects.SpawnRuns` | src/signals.test.ts:81-92 | `effect(fn)` runs the new effect exactly once before returning, leaves it active, and runs no existing effect |
| `SignalEffects.RunJobRuns` | src/signals.test.ts:198-229 | An effect's re-run counts one run of that effect and of no other existing effect |
| `SignalEffects.RunBatchRuns` | src/signals.test.ts:588-606 | A duplicate-free batch runs each of its effects active at the start exactly once, and no other existing effect |
| `SignalEffects.FlushRuns` | src/signals.test.ts:588-606 | A flush runs every queued effect exactly once and no other existing effect |
| `SignalEffects.RunBatchFailures` | src/signals.test.ts:588-606 | A batch appends exactly its entries' failures to the log, after the old entries |
| `SignalEffects.BatchLogOrder` | src/signals.test.ts:588-606 | The effects a batch's failures name form a subsequence of the batch: batch entries, in batch order |
| `SignalEffects.FlushFailures` | src/signals.test.ts:588-625 | A flush reports the failures of the queued effects' runs, in queue order, after those already logged |
| `SignalEffects.FlushIdle` | src/signals.test.ts:608-625 | A flush of an empty queue changes nothing but the flush request |
| `SignalEffects.StopFacts` | src/signals.test.ts:174-196 | `stop()` leaves the effect inactive, without dependencies, subscribed to nothing and out of the queue; every other node keeps its state |
| `SignalEffects.StopIdempotent` | src/signals.test.ts:174-196 | Stopping a stopped effect changes nothing |
| `SignalEffects.InactiveStaysIdle` | src/signals.test.ts:174-196 | An inactive effect is never queued by a write and never run by a flush |
| `SignalEffects.StopAllFacts` | src/signals.test.ts:471-498 | Stopping a list of effects deactivates exactly those listed and runs none |
| `SignalEffects.StopScopeFacts` | src/signals.test.ts:544-567 | A scope's stop deactivates exactly the effects it owns and the scope, keeps the arena, node kinds and every run count, leaves other scopes alone, and a second stop changes nothing |
| `SignalEffects.FlushScopes` | src/signals.test.ts:500-526 | Effects created during a flush belong to no scope; every scope is unchanged |
| `SignalEffects.NewEffectUnowned` | src/signals.test.ts:500-526 | An effect created outside any scope callback, with all its nested effects, belongs to no scope |
| `SignalEffects.NewScopeOwns` | src/signals.test.ts:471-498 | `effectScope(cb)` adds one active scope owning exactly the effects created during the callback, nested ones included, in creation order |
| `SignalApi.InitialLive` | src/signals.test.ts:7-8 | The empty engine satisfies the full invariant `Live` |
| `SignalApi.NewSignalLive` | src/signals.test.ts:9-12 | `signal(v)` keeps `Live`, queues nothing, and the new signal holds `v` |
| `SignalApi.NewComputedLive` | src/signals.test.ts:301-311 | `computed(f)` keeps `Live`; the new computed is dirty and has never run |
| `SignalApi.ReadLive` | src/signals.test.ts:286-327 | A top-level read returns the signal's value or the computed's meaning, re-evaluates exactly the dirty computeds it reaches, each once, and keeps `Live` |
| `SignalApi.StopLive` | src/signals.test.ts:174-196 | `stop()` keeps `Live` |
| `SignalApi.StopScopeLive` | src/signals.test.ts:544-567 | A scope's stop keeps `Live` |
| `SignalApi.FlushLive` | src/signals.test.ts:588-625 | A flush re-runs every queued effect once on the current values, leaves other effects alone, empties the queue and keeps `Live` |
| `SignalApi.FlushOne` | src/signals.test.ts:414-442 | Flushing one queued leaf effect re-evaluates exactly the dirty computeds its body reaches, each once |
| `SignalApi.WriteDirties` | src/signals.test.ts:321-327 | A write dirties a clean computed exactly when the value changes and the computed's meaning depends on the signal; no cache changes |
| `SignalApi.WriteQueues` | src/signals.test.ts:130-172 | A write queues an active effect not yet queued exactly when the value changes and the effect tracks the signal |
| `SignalApi.WriteLive` | src/signals.test.ts:62-77 | A setter call sets the signal, keeps other values, queues exactly the affected effects, and keeps `Live`; writing the current value changes nothing |
| `SignalApi.SetAndFlush` | src/signals.test.ts:81-101 | A write and a flush re-run an effect once exactly when it was queued or tracks the changed signal; the re-run records the meaning of its body |
| `SignalApi.SetAndFlushSize` | src/signals.test.ts:588-606 | When no effect creates nested effects, a write and a flush create no node |
| `SignalApi.SetAndFlushOne` | src/signals.test.ts:103-128 | The `SetAndFlush` rule for one given effect |
| `SignalApi.NewEffectLive` | src/signals.test.ts:81-92 | `effect(fn)` runs once at creation, records the meaning of its body, queues nothing and keeps `Live` |
| `SignalApi.LeafEffectReads` | src/signals.test.ts:444-468 | The first run of a leaf effect re-evaluates exactly the dirty computeds it reaches, each once |
| `SignalApi.NewScopeLive` | src/signals.test.ts:569-584 | `effectScope(cb)` keeps `Live`, runs each created effect once, and reports the callback's throw as its status |
| `SignalScenarios.WatchRuns` | src/signals.test.ts:265-282 | A changing write to a tracked signal and a flush re-run the effect once over the new values |
| `SignalScenarios.WatchIdle` | src/signals.test.ts:159-164 | A write to a signal the effect does not track, with no computed tracked, leaves the effect alone |
| `SignalScenarios.HoldsTick` | src/signals.test.ts:9-20 | A write and a flush change only the written signal's value |
| `SignalScenarios.SignalBasics` | src/signals.test.ts:9-20 | The getter returns 0, then 1 after `set(1)`; setting 1 again leaves the state unchanged |
| `SignalScenarios.ReadOutsideEffect` | src/signals.test.ts:40-43 | A getter outside any effect returns 42 |
| `SignalScenarios.UntrackedRead` | src/signals.test.ts:45-60 | An effect reading only under `untrack` runs once and not again after a write |
| `SignalScenarios.SameValueWrite` | src/signals.test.ts:62-77 | Writing the current value leaves the effect at one run |
| `SignalScenarios.EffectReactivity` | src/signals.test.ts:81-101 | The effect runs once seeing 0, then twice seeing 1 |
| `SignalScenarios.DependencyTracking` | src/signals.test.ts:103-128 | Runs 1, 2, 3 with sums 3, 4, 5 |
| `SignalScenarios.CondFacts` | src/signals.test.ts:137-140 | The conditional body tracks the condition and the chosen branch only, and means that branch's value |
| `SignalScenarios.BranchSwitching` | src/signals.test.ts:130-172 | Runs and results 1/1, 2/10, 3/2, 3/2 (write to `a` ignored), 4/30 |
| `SignalScenarios.StopEffect` | src/signals.test.ts:174-196 | Two runs, then after `stop()` a write leaves it at two and inactive |
| `SignalScenarios.NestedEffects` | src/signals.test.ts:198-229 | Outer and inner runs 1/1, then 2/2 with a second inner effect, then 2/4 |
| `SignalScenarios.MultipleSignals` | src/signals.test.ts:231-263 | Runs 1 to 4 with sums 6, 15, 33, 60 |
| `SignalScenarios.ReadSum` | src/signals.test.ts:290-292 | Reading the sum computed returns the sum of the current values |
| `SignalScenarios.WriteSum` | src/signals.test.ts:294-298 | Writing either signal keeps the sum computed's shape with the new value |
| `SignalScenarios.ComputedBasics` | src/signals.test.ts:286-299 | The sum reads 3, 7, 15 |
| `SignalScenarios.ReadDoubled` | src/signals.test.ts:406-412 | Reading the doubling computed returns twice the signal, evaluating once only if dirty, and leaves it clean |
| `SignalScenarios.WriteDoubled` | src/signals.test.ts:321-322 | A changing write marks the computed dirty without evaluating it |
| `SignalScenarios.LazyEvaluation` | src/signals.test.ts:301-327 | Evaluator runs 0 before a read, 1 after two reads returning 2, and 2 after a write and a read returning 10 |
| `SignalScenarios.EffectOverDoubled` | src/signals.test.ts:329-342 | An effect over the computed runs once, sees twice the signal, and evaluates the computed only if stale |
| `SignalScenarios.FlushDoubled` | src/signals.test.ts:344-348 | A write and a flush re-run the effect and the computed once each, over the new value, in an engine whose only effect is the watching one |
| `SignalScenarios.TriggerRuns` | src/signals.test.ts:444-468 | Effect and computed runs 1/1, then 2/2 |
| `SignalScenarios.WarmRuns` | src/signals.test.ts:414-442 | After an earlier read the computed ran once; then effect and computed runs 1/1 and 2/2 |
| `SignalScenarios.ChainFacts` | src/signals.test.ts:395-398 | The chain's last step means ((base * 2) + 10) * 3 |
| `SignalScenarios.ChainComputation` | src/signals.test.ts:394-404 | Reading the end of the chain gives 36, then 60 after `setBase(5)` |
| `SignalScenarios.DiamondFacts` | src/signals.test.ts:352-355 | `d` means 2a + 3 and depends on `a` |
| `SignalScenarios.DiamondDependency` | src/signals.test.ts:351-374 | One run seeing 5, then exactly one more run seeing 7 |
| `SignalScenarios.WatcherQueued` | src/signals.test.ts:598 | The first changing write queues the effect reading the signal |
| `SignalScenarios.QueuedStays` | src/signals.test.ts:599-600 | Further writes leave a queued effect queued once and untouched |
| `SignalScenarios.BatchedWrites` | src/signals.test.ts:588-606 | Three writes before a flush give exactly one re-run, which sees the last value |
| `SignalScenarios.EmptyFlush` | src/signals.test.ts:608-625 | A second flush with an empty queue leaves the effect at two runs |
| `SignalScenarios.ScopeSpawn` | src/signals.test.ts:476-481 | The scope callback's effect runs once at creation, whether or not the callback throws |
| `SignalScenarios.ScopeStopped` | src/signals.test.ts:490-497 | An effect owned by a stopped scope is inactive and a write and a flush do not run it |
| `SignalScenarios.ScopeLifecycle` | src/signals.test.ts:472-498 | Runs 1, 2, then still 2 and inactive after the scope stops |
| `SignalScenarios.ScopeStopTwice` | src/signals.test.ts:544-567 | After the scope stops, a write leaves the effect at one run, and a second stop changes nothing |
| `SignalScenarios.ScopeThrows` | src/signals.test.ts:569-584 | A throwing callback passes the error on, its effect stays registered, and stopping the scope stops it |
| `SignalScenarios.StoppedStays` | src/signals.test.ts:519-525 | A stopped effect stays stopped and unrun through a scope stop, a write and a flush |
| `SignalScenarios.UnownedEffect` | src/signals.test.ts:500-526 | The effect created after `effectScope()` is not owned; it runs 1, 2 and stops only by its own `stop()` |
| `SignalScenarios.InactiveScope` | src/signals.test.ts:528-542 | An effect created after its scope was stopped still runs once and joins no scope |
| `SignalScenarios.ChildSpawn` | src/signals.test.ts:208-211 | An effect run creating a nested effect allocates it active and run once |
| `SignalScenarios.FlushSpawn` | src/signals.test.ts:217-221 | The same when the parent is re-run by a flush |
| `SignalScenarios.QueuedAlone` | src/signals.test.ts:223-228 | A write seen by only one active effect queues exactly that effect |
| `SignalScenarios.NestFlushB` | src/signals.test.ts:223-228 | The write to `b` re-runs both inner effects and not the outer one, in an engine whose only effects are the test's three |
| `SignalScenarios.CircularDetection` | src/signals.test.ts:376-392 | Reading `a`, where `a` (after a setter call) reads `b` and `b` reads `a`, fails with `CircularDependency` |
| `Rewriter.BrowserUrlShape` | src/rewriter.ts:40-48 | `IsBrowserUrl`'s four prefixes are exactly the two schemes `http` and `https`, each bare or after `blob:`. This restates the definition in factored form; which specifiers are and are not browser URLs is stated by `NotBrowserUrl` and `MappedIsBrowserUrl` |
| `Rewriter.NotBrowserUrl` | src/rewriter.ts:40-48 | `data:` URLs, relative and root-relative specifiers, `npm:` and `node:` are never browser URLs |
| `Rewriter.MapRelative` | src/rewriter.ts:19-20 | A specifier starting with `.` or `/` is resolved against the source URL |
| `Rewriter.MapNode` | src/rewriter.ts:21-24 | `node:X` becomes `https://raw.esm.sh/@jspm/core/nodelibs/browser/X.js` |
| `Rewriter.MapNpm` | src/rewriter.ts:25-26 | `npm:X` becomes `https://esm.sh/X` |
| `Rewriter.MapBare` | src/rewriter.ts:27-31 | Any other specifier `S` becomes `https://esm.sh/S` |
| `Rewriter.MappedIsBrowserUrl` | src/rewriter.ts:21-31 | Every non-relative specifier is rewritten to a browser URL |
| `Rewriter.Rewritable` | src/rewriter.ts:8-11 | The filtered imports are exactly those whose specifier is not a browser URL |
| `Rewriter.RewritableOrdered` | src/rewriter.ts:8-13 | Filtering keeps the imports ascending and non-overlapping |
| `Rewriter.SplicedFilter` | src/rewriter.ts:8-11 | Splicing only the filtered imports equals splicing all of them with browser URLs mapped to themselves: filtered-out imports keep their text byte for byte |
| `Rewriter.SplicedIdentity` | src/rewriter.ts:13-33 | When every specifier maps to itself the text is unchanged: splices touch only the import ranges |
| `Rewriter.SplicedLength` | src/rewriter.ts:32 | The output length is the input length plus what each replacement adds over its specifier |
| `Rewriter.SpliceStep` | src/rewriter.ts:13-15 | In the reverse loop, the slice read for each import equals the original specifier, and each splice extends the rewritten suffix |
| `Rewriter.RewriteModule` | src/rewriter.ts:5-38 | The reverse-order splice loop gives the front-to-back rewrite of the non-browser imports, passed through the hook |
| `Rewriter.ImporterFirst` | src/rewriter.ts:73-89 | The importer is the answer of the first qualifying frame, and there is none exactly when no frame qualifies |
| `Rewriter.GetImporterUrl` | src/rewriter.ts:73-89 | The frame loop with `continue` and early `return` computes `Importer` |
| `Rewriter.Loader.constructor` | src/rewriter.ts:51 | `blobMap` starts empty |
| `Rewriter.Loader.Esm` | src/rewriter.ts:54-67 | `esm` returns the rewritten text and records `blobUrl → sourceUrl`; no entry is removed |
| `Rewriter.ImporterAfterEsm` | src/rewriter.ts:73-89 | After `esm` records a blob URL, a stack on which that blob's frame is the first to give an answer resolves to its source URL |
| `Rewriter.ImporterBehindSelf` | src/rewriter.ts:73-89 | The same for the usual stack, where the frames before the blob's name no file or this module itself (`getImporterUrl`'s own frame) |
| `Template.Upper` | src/template.ts:21 | A lower-case ASCII letter upper-cases to the letter at the same position of the upper-case alphabet |
| `Template.CamelLength` | src/template.ts:19-22 | The output is shorter than the input by the number of `-` + lower-case letter pairs |
| `Template.CamelHead` | src/template.ts:21 | The first output character is the upper-cased letter of a leading match, or the first input character |
| `Template.CamelHasNoPair` | src/template.ts:21 | No `-` in the output is followed by a lower-case letter |
| `Template.CamelIdentity` | src/template.ts:21 | A string without such a pair is unchanged |
| `Template.CamelNoDash` | src/template.ts:21 | A string without `-` is unchanged |
| `Template.CamelIdempotent` | src/template.ts:21 | Converting twice is converting once |
| `Template.CamelDoubleDash` | src/template.ts:21 | `a--b` becomes `a-B`: matching is left to right and non-overlapping |
| `Template.Classify` | src/template.ts:43-62 | An attribute yields a binding exactly when its name starts with `.`, `:` or `@` |
| `Template.ClassifyProperty` | src/template.ts:43-44 | `.x-y` yields a property binding named `toCamelCase("x-y")` |
| `Template.ClassifyAttribute` | src/template.ts:51-53 | `:name` yields an attribute binding on `name`, without case conversion |
| `Template.ClassifyEvent` | src/template.ts:60-62 | `@name` yields an event listener on `name`, without case conversion |
| `Template.Keep` | src/template.ts:50 | Removing names keeps exactly the attributes with other names |
| `Template.KeepPlain` | src/template.ts:42-68 | Removing a list's own directive names leaves exactly its plain attributes |
| `Template.Element.RemoveAttribute` | src/template.ts:50 | `removeAttribute(name)` drops the attributes with that name |
| `Template.Element.Bind` | src/template.ts:42-70 | The loop over the attribute snapshot yields the bindings of all directives in order and leaves exactly the plain attributes |
| `Template.AttrLists` | src/template.ts:39-41 | Each node's attribute list, and none for a node that is not an element |
| `Template.ReactiveNodes` | src/template.ts:24-74 | Only the listed element nodes are processed; their directives are bound and removed; the bindings' effects are created in one new scope, whose index is returned |

## Left out

- `src/signals.ts`, the engine's implementation file, is not part of this model. The engine is modelled from the contract its test suite asserts.
- The "type safety" test (`src/signals.test.ts:22-38`): values are integers. Strings, booleans and objects, and the equality test on them, are not modelled.
- Microtask timing (`nextTick`, `setTimeout`): the flush is the explicit step `Flush`. `flushScheduled` records that a flush was requested.
- JavaScript numbers are doubles. The model's integers are unbounded, so there is no overflow or rounding.
- Evaluator bodies are the `Expr` scripts. A nested effect is created after its parent's body has been evaluated, not in the middle of it. A scope callback creates effects but no nested scopes.
- The order of a subscriber list and of the queue follows first insertion, as JavaScript's `Set` does.
- `es-module-lexer`, `stacktrace-parser` and `new URL`: their results are the parameters `imports`, `frames` and `resolve`. The lexer is taken to report ascending, non-overlapping ranges inside the text (`Ordered`).
- `config.rewriteModule` (`src/config.ts`) is the parameter `hook`.
- `Blob`, `URL.createObjectURL`, `URL.revokeObjectURL` and dynamic `import()` in `esm` are browser I/O. The fresh blob URL is a parameter, and the text to be imported is returned.
- `evalExpr` (`new Function`), `Reflect.set`, `setAttribute`, `addEventListener` and all other DOM access in `src/template.ts`. An expression becomes an effect body through the parameter `compile`.
- Template.ReactiveNodes: each `@` listener in the source is built by reading a freshly created computed. That computed is not modelled, and a listener creates no engine node here.
- Template.ReactiveNodes: in the source, each effect is created and run while the attribute loop goes on. The model binds and removes all directives first, then creates the effects in the same order inside the scope. The effects' first runs do not read attributes, so the outcome is the same unless an effect throws: the source then stops the loop and leaves the later directive attributes in place, while the model has already removed them.
- SignalApi.ReadLive, SignalApi.WriteDirties, SignalApi.WriteQueues, SignalApi.WriteLive, SignalApi.FlushLive, SignalApi.SetAndFlush, SignalApi.NewEffectLive, SignalApi.NewComputedLive, SignalApi.NewScopeLive and SignalPropagation.WriteCoherent assume the engine satisfies `Live`. Engines holding a cyclic computed, a computed that untracks, writes or throws, or an effect that writes or throws are not covered; the structural laws of `SignalInvariants` and `SignalEffects` still hold for them.
- SignalScenarios: each scenario starts from an engine of its own that satisfies `Live`, not from the single engine the test file shares across its tests. After the cycle test (`src/signals.test.ts:376-392`) that shared engine holds two cyclic computeds, one of which calls a setter, so no later shared state satisfies `Live`.
- SignalScenarios.NestedEffects, SignalScenarios.EffectOverDoubled, SignalScenarios.TriggerRuns, SignalScenarios.WarmRuns, SignalScenarios.DoublingStart and SignalScenarios.DoublingRead also start from an engine holding no effect at all (`NoEffects`), whereas in the test file the effects of earlier tests are never stopped.
- SignalScenarios.FlushDoubled, SignalScenarios.NestFlushA, SignalScenarios.NestSizeB and SignalScenarios.NestFlushB likewise require that the test's own effects be the only effects in the engine: the watching effect for `FlushDoubled`, and the nested test's outer and inner effects (through `NestedOnce` and `NestedTwice`) for the others. Effects left active by earlier tests in the shared engine are not covered.
- `src/template.test.ts`, `src/network.ts`, `src/index.ts` and `src/error.ts`: a DOM example with no assertions, a fetch wrapper, re-exports and an error class.
