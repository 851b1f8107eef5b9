# Effector's graph kernel and store semantics, in Dafny

This project models the core of effector, a reactive dataflow library. There are two layers.

**The graph data model** (`src/effector/stdlib/index.h.js`):
- A state cell (`StateRef`). Its `id` is fixed; its `current` contents change.
- The six commands a node runs (`update`, `run`, `filter`, `emit`, `compute`, `barrier`).
- Graph nodes with `from`, `next`, `seq`, `scope` and `meta`.
- The `graphite` indirection through which units expose their node.
- The unit kinds.

**The store semantics** that the store test suite asserts (`src/effector/__tests__/store/index.test.js`):
- `createStore`, which refuses `undefined`;
- `store.on(trigger, reducer)` and `store.off(trigger)`, which both return the store;
- `store.map(fn, initial)`, which seeds the derived store eagerly;
- `store.watch(fn)` and the unsubscribe function it returns;
- `store.watch(unit, fn)`;
- calling an event or an effect with a payload;
- `getState()`.

The type file declares data only. The behaviour of a node is therefore stated as a sequence executor over the commands, and propagation is stated as a level-by-level traversal:
- `filter` false stops a node's sequence.
- A `compute` that yields `undefined` stops it (no value).
- An `update` whose cell already holds the value stops it.
- Otherwise, the final value is handed to every node in `next`.

## Modules

- `values.dfy` (`Values`) holds the closed value type that stands in for JavaScript's `any`.
- `graph.dfy` (`Graphs`) holds the type file:
  - `Kind`;
  - the `StateRef` class, with a constant `id` and a mutable `current`;
  - the `Cmd` datatype with its `type` tag;
  - `Graph`;
  - `Graphite`.
- `executor.dfy` (`Executor`) holds the pipeline with early exit. `Step` runs one command; `Exec` runs a node's sequence against a heap of cell contents and a record of watcher calls.
- `kernel.dfy` (`Kernel`) holds propagation:
  - `VisitNode` runs one node;
  - `ProcessLevel` runs one generation;
  - `Drain` runs generations until none is left;
  - `Activate` runs a whole activation.

  Every edge goes to a node of higher rank, and that ranking is what makes activations terminate.
- `world.dfy` (`Stores`) holds the store API as pure functions over a `World`. A world is the node arena, the ranks, the cell contents and the call record.
- `engine.dfy` (`Engine`) holds the imperative engine:
  - A `Runtime` class owns the node arena and the `StateRef` objects.
  - A `Store` class carries the store's node, its cell and its `.on` handlers by trigger. Its invariant says that each handler is a child of its trigger, that the trigger is the handler's only parent, and that the handler is not the store itself.
  - Running an activation overwrites `StateRef.current` in place.
  - Every method that builds or rewires the graph is proved to leave `Runtime.State()` equal to the matching `Stores` function applied to the old state.
  - The methods that run the graph (`RunCmd`, `RunSeq`, `ServeVisit`, `ServeLevel`, `ServeGeneration`, `DrainAll`) are proved to match the `Executor` and `Kernel` functions `Step`, `Exec`, `VisitNode`, `ProcessLevel` and `Drain`. `Launch`, which runs a whole activation, matches `Stores.Fire`.
- `scenarios.dfy` (`StoreScenarios`) states each test as lemmas over the `Stores` functions: the graph it builds, the `getState()` values after each call and the calls each watcher receives.
- `live.dfy` (`LiveScenarios`) drives these tests through the `Runtime` and `Store` objects: `createStore(undefined)`, basic mapping, unsubscribe, and the `.off` test that `.off` returns the store (lines 225-229). Each method's contract is what the test expects.

The spy fixtures of the tests become the runtime's call record. A watcher's call is a `Call(node, args)` entry; `getSpyCalls()` is the list of entries of the spy's node.

## Model

| member | source | states |
|---|---|---|
| Graphs.KindName | src/effector/stdlib/index.h.js:6-10 | A unit's kind tag is one of 'store', 'event', 'effect' and 'domain'. |
| Graphs.StateRef.constructor | src/effector/stdlib/index.h.js:12-15 | A new cell has the given identity and contents; the identity is a constant and cannot change afterwards. |
| Graphs.StateRef.Write | src/effector/stdlib/index.h.js:14 | Only `current` is writable; after a write it holds the new value. |
| Graphs.Cmd.Type | src/effector/stdlib/index.h.js:27-90 | A command's `type` tag is 'update', 'run', 'filter', 'emit', 'compute' or 'barrier' exactly when the command is that variant. The tag therefore determines which payload is present. |
| Executor.Step | src/effector/stdlib/index.h.js:35-90 | One command stops the sequence iff it is a `filter` whose predicate is false, a `compute` yielding no value, or an `update` of a cell that already holds the value. A stop changes nothing and its reason matches the command. Otherwise only `compute` replaces the value, only `update` writes its one cell, and only `run` records a call. |
| Executor.Exec | src/effector/stdlib/index.h.js:95 | Running a node's command sequence keeps the number of cells. It only appends to the call record, and every call it records is the node's own. |
| Executor.ExecAppend | src/effector/stdlib/index.h.js:95 | Running `a + b` is running `a` and then `b` on its result. A stop in `a` means `b` never runs. |
| Executor.StopHasCause | src/effector/stdlib/index.h.js:27-90 | A sequence that stops holds a command whose kind matches the stop reason. |
| Executor.PassThrough | src/effector/stdlib/index.h.js:35-81 | A sequence made only of `run`, `emit` and `barrier` runs to the end. It forwards the value unchanged and writes no cell. |
| Executor.OnlyComputeTransforms | src/effector/stdlib/index.h.js:82-90 | Without a `compute`, a sequence that runs to the end forwards the very value it received. |
| Executor.ExecFrame | src/effector/stdlib/index.h.js:45-53 | A cell that no `update` in the sequence names keeps its contents. |
| Kernel.ProcessLevel | src/effector/stdlib/index.h.js:92-98 | Serving a generation keeps the number of cells and only grows the call record. Every visit it hands on lies at a higher rank. |
| Kernel.Drain | src/effector/stdlib/index.h.js:92-98 | Propagation terminates, keeps the number of cells and only grows the call record. |
| Kernel.Activate | src/effector/stdlib/index.h.js:92-98 | One activation from a node keeps the number of cells and only grows the call record. |
| Kernel.DrainAvoids | src/effector/stdlib/index.h.js:93-94 | When no node outside a set `S` has a child in `S`, a traversal that starts outside `S` never runs a node of `S`. It records no call of theirs and leaves every cell only they write unchanged. |
| Kernel.DrainOne | src/effector/stdlib/index.h.js:94-95 | A generation of one visit is that node's run followed by the generation made of its children. |
| Kernel.SingleVisit | src/effector/stdlib/index.h.js:95 | For a node whose sequence is one command, that command's verdict alone decides what the node writes and hands on. |
| Kernel.DrainStop | src/effector/stdlib/index.h.js:94-95 | A visit that hands nothing on ends the activation with its heap. |
| Kernel.DrainPass | src/effector/stdlib/index.h.js:94-95 | A visit with a single child continues from that child, one generation later. |
| Stores.CreateUnit | src/effector/__tests__/store/index.test.js:12 | `createEvent`/`createEffect` adds one node. The node only marks the activation, has no children and no parent, and is at rank 0. |
| Stores.CreateStore | src/effector/__tests__/store/index.test.js:6-8 | `createStore(init)` fails exactly when `init` is undefined. Otherwise it adds a root store node whose state is `init`, in a new cell, and leaves every other node and cell as it was. |
| Stores.AddStore | src/effector/__tests__/store/index.test.js:13 | A store node is a single `update` of its own new cell, which holds the initial state. |
| Stores.On | src/effector/__tests__/store/index.test.js:13 | `.on` adds an edge node whose only parent is the trigger. The node reduces the store's state with the payload and has the store as its only child. No other node's children change. |
| Stores.Off | src/effector/__tests__/store/index.test.js:211 | `.off` removes exactly the store's edge node from the trigger's children. When the trigger was that node's only parent, no node lists it in `next` any more; its `from` still names the trigger, which traversal never reads. The arena, the ranks, the cells and the calls are otherwise unchanged. |
| Stores.Map | src/effector/__tests__/store/index.test.js:15-17 | `.map` adds a derived store. The store is undefined while the source is undefined; otherwise it holds `fn(source state, initial)`. The value lives in a new cell. |
| Stores.MapEdges | src/effector/__tests__/store/index.test.js:15-17 | `.map` wires source → edge node → derived store, each the only parent of the next. The edge node recomputes the derived store from the source's new value and the derived store's previous state. |
| Stores.Watch | src/effector/__tests__/store/index.test.js:19 | `watch(fn)` records one call at once with the store's current state. It adds a child of the store that calls `fn` on every later change, and changes no cell. |
| Stores.WatchUnit | src/effector/__tests__/store/index.test.js:142 | `watch(unit, fn)` adds a child of the unit, not of the store. The child calls `fn` with the store's state and the payload; nothing is called at subscription. |
| Stores.OffDetaches | src/effector/__tests__/store/index.test.js:211-223 | For any set `S` of nodes that holds the cut edge node and whose other members are fed only from inside `S`: after `.off(t)`, firing `t` calls no watcher in `S` and leaves every cell only `S` writes unchanged. |
| Stores.OffKeepsStore | src/effector/__tests__/store/index.test.js:211-217 | A store fed only through the edge node `.on(t)` made keeps its state when `t` fires after `.off(t)`. |
| Stores.Unsubscribe | src/effector/__tests__/store/index.test.js:128 | The function `watch` returns removes the watcher from its parent's children; when that parent was its only one, no node lists it in `next` any more. Nothing else changes. |
| Stores.Fire | src/effector/__tests__/store/index.test.js:25 | Calling a unit runs one activation. The graph stays as it is; only cells change, and calls are appended. |
| Stores.FireAvoids | src/effector/__tests__/store/index.test.js:211-223 | Firing from outside a closed set of nodes records no call of theirs and leaves the cells only they write unchanged. |
| Stores.UnsubscribeSilences | src/effector/__tests__/store/index.test.js:128-131 | After unsubscribing, no later activation calls the watcher. |
| Stores.UnitWatcherOnlyOnUnit | src/effector/__tests__/store/index.test.js:144-153 | A `watch(unit, fn)` watcher is never called by firing anything but its unit, including the store's own triggers. |
| Stores.StoreVisit | src/effector/__tests__/store/index.test.js:39-41 | A store handed the value it already holds stops the activation with nothing written or called. Handed a new value, it stores the value and passes it to every child. |
| Stores.UnitVisit | src/effector/__tests__/store/index.test.js:25 | An event or effect hands the payload to its children untouched. |
| Stores.EdgeVisit | src/effector/__tests__/store/index.test.js:76-87 | An `.on`/`.map` edge hands on what its function makes of the value and the store state. A result of no value stops the activation there. |
| Stores.WatcherVisit | src/effector/__tests__/store/index.test.js:19 | A watcher node records one call on the value and its scope, and hands the value on. |
| StoreScenarios.Chain1Holds | src/effector/__tests__/store/index.test.js:12-13 | After `createEvent()` and `createStore(init)`: two nodes and one cell holding `init`. |
| StoreScenarios.Chain2Holds | src/effector/__tests__/store/index.test.js:13 | After `a.on(newWord, reducer)`: the event's only child is the reducer edge, whose only child is `a`. |
| StoreScenarios.Chain3Holds | src/effector/__tests__/store/index.test.js:15 | After `b = a.map(f, initial)`: `a` feeds `b` through one edge, and `b` holds `f(init, initial)`. |
| StoreScenarios.FrontStoreSame | src/effector/__tests__/store/index.test.js:39-41 | `a` handed the value it holds stops the activation unchanged. |
| StoreScenarios.FrontEdge | src/effector/__tests__/store/index.test.js:15 | The edge into `b` hands on what `f` makes of the value and `b`'s previous state. |
| StoreScenarios.FireLeaf | src/effector/__tests__/store/index.test.js:211-213 | Firing a unit with no children changes nothing. |
| StoreScenarios.WordChain | src/effector/__tests__/store/index.test.js:12-17 | The word chain the tests build holds 'word', 4 and 4 and has recorded no call yet. |
| StoreScenarios.WatchedChain | src/effector/__tests__/store/index.test.js:19-23 | With `sum.watch(spy)` added, the spy is called once, with 4. |
| StoreScenarios.FireWord | src/effector/__tests__/store/index.test.js:25-41 | For every word, `newWord(word)` on the word chain leaves the cells and calls the test expects. `a` takes the word. `b` takes its length if that changed, and otherwise stops. `sum` takes `length + previous sum` if that changed. The spy is called exactly when `sum` changes. |
| StoreScenarios.CounterChain | src/effector/__tests__/store/index.test.js:44-48 | `createStore(0).on(inc, x => x + 1).map(describe, initial)` with `computed.watch(fn)`: `fn` is called at once with the description of 0. |
| StoreScenarios.FireInc | src/effector/__tests__/store/index.test.js:49-50 | `inc()` increments the counter. `computed` becomes the description of the new count and the previous description, and `fn` receives it. |
| StoreScenarios.CreateStoreUndefined | src/effector/__tests__/store/index.test.js:6-8 | `createStore(undefined)` fails, and any defined initial state is accepted. |
| StoreScenarios.WatchedStep | src/effector/__tests__/store/index.test.js:25-35 | One `newWord(word)` on the watched chain keeps the graph. It moves the cells and calls as `FireWord` says. |
| StoreScenarios.MappingStart | src/effector/__tests__/store/index.test.js:21-23 | a, b and sum read 'word', 4 and 4, and the spy has one call (4). |
| StoreScenarios.MappingLol | src/effector/__tests__/store/index.test.js:25-29 | `newWord('lol')`: 'lol', 3 and 7, and the spy is called with 7. |
| StoreScenarios.MappingLongWord | src/effector/__tests__/store/index.test.js:31-37 | `newWord('long word')`: 'long word', 9 and 16, and the spy has been called three times. |
| StoreScenarios.MappingEmptyWord | src/effector/__tests__/store/index.test.js:39-41 | `newWord('')`: b becomes 0 and sum recomputes to 16, its current value, so the spy stays at three calls. |
| StoreScenarios.UnsubscribeBefore | src/effector/__tests__/store/index.test.js:123-126 | `newWord('long word [1]')` after 'lol': 13 and 20, and three calls (4, 7, 20). |
| StoreScenarios.UnsubscribeAfter | src/effector/__tests__/store/index.test.js:128-131 | After `unsub()`, `newWord('long word _ [2]')` still moves the stores to 15 and 35 but adds no call. |
| StoreScenarios.OffSilences | src/effector/__tests__/store/index.test.js:205-223 | After `a.off(newWord)`, `newWord('long word')` and `newWord('')` leave a, b and sum at 'lol', 3 and 7, and the spy at two calls. |
| StoreScenarios.HookedChain | src/effector/__tests__/store/index.test.js:133-142 | The word chain with `sum.watch(spyEvent, fn)`, for an event or an effect: nothing is called at subscription. |
| StoreScenarios.HookedWord | src/effector/__tests__/store/index.test.js:144-145 | With the spy hooked on the unit, a `newWord` moves the stores but calls no spy. |
| StoreScenarios.HookedSpy | src/effector/__tests__/store/index.test.js:146-147 | `spyEvent(v)` calls the spy once with `[sum's state, v]`, and no store changes. |
| StoreScenarios.SpyFirstCalls | src/effector/__tests__/store/index.test.js:144-148 | `newWord('lol')` calls nothing; `spyEvent(1)` and `spyEvent(2)` give `[7, 1]` and `[7, 2]`. |
| StoreScenarios.SpyWordsOnly | src/effector/__tests__/store/index.test.js:150-153 | `newWord('')` and `newWord(' ')` move sum to 7, then 8, with no spy call. |
| StoreScenarios.SpyLastCall | src/effector/__tests__/store/index.test.js:155-158 | `spyEvent(3)` gives `[8, 3]`, and `newWord('long word')` adds no call. |
| StoreScenarios.CountingStep | src/effector/__tests__/store/index.test.js:49-50 | Each `inc()` adds one to the count, and `fn` receives a description that nests the previous one. |
| StoreScenarios.UndefinedTexts | src/effector/__tests__/store/index.test.js:51-57 | The three descriptions without an initial state are '(0, undefined)', '(1, (0, undefined))' and '(2, (1, (0, undefined)))'. |
| StoreScenarios.InitialTexts | src/effector/__tests__/store/index.test.js:67-73 | The three descriptions with the initial state 'initial'. |
| StoreScenarios.HandlerStart | src/effector/__tests__/store/index.test.js:43-48 | Without an initial state, the handler first receives `undefined` as the previous state: '(0, undefined)'. |
| StoreScenarios.HandlerIncs | src/effector/__tests__/store/index.test.js:49-57 | After two `inc()` calls, `fn`'s argument history is exactly the three listed descriptions. |
| StoreScenarios.InitialStart | src/effector/__tests__/store/index.test.js:59-64 | With the initial state 'initial', the handler first receives it: '(0, initial)'. |
| StoreScenarios.InitialIncs | src/effector/__tests__/store/index.test.js:65-73 | After two `inc()` calls, the history is '(0, initial)', '(1, (0, initial))' and '(2, (1, (0, initial)))'. |
| StoreScenarios.NestedSkipping | src/effector/__tests__/store/index.test.js:76-87 | When `f(null)` yields no value, `b` is undefined and `c` is undefined whatever `g` is, because `g` is never applied. |
| Engine.Cleared | src/effector/__tests__/store/index.test.js:211 | The trigger loses exactly the edge node the store registered for it, if any. Nothing else changes. |
| Engine.Runtime.constructor | src/effector/stdlib/index.h.js:92-98 | A new runtime is the empty world. |
| Engine.Runtime.CreateUnit | src/effector/__tests__/store/index.test.js:12 | Leaves the runtime in the world `Stores.CreateUnit` gives, and returns the new node. |
| Engine.Runtime.CreateStore | src/effector/__tests__/store/index.test.js:6-8 | Fails exactly on `undefined`, with nothing changed. Otherwise it returns a fresh store, with a fresh cell, whose runtime is the world `Stores.CreateStore` gives. |
| Engine.Runtime.AddStoreNode | src/effector/__tests__/store/index.test.js:13 | Allocates a fresh `StateRef` and leaves the world `Stores.AddStore` gives. |
| Engine.Runtime.AddOn | src/effector/__tests__/store/index.test.js:13 | Leaves the world `Stores.On` gives. |
| Engine.Runtime.Handle | src/effector/__tests__/store/index.test.js:13 | Cuts the store's previous handler for the trigger, then adds the new one: `On(Cleared(...))`. |
| Engine.Runtime.Release | src/effector/__tests__/store/index.test.js:211 | Leaves the world `Cleared` gives. |
| Engine.Runtime.RemoveChild | src/effector/__tests__/store/index.test.js:128 | Updates the arena in place to the world `Stores.Unlink` gives. |
| Engine.Runtime.AddMap | src/effector/__tests__/store/index.test.js:15-17 | Allocates a fresh `StateRef` seeded from the source's cell and leaves the world `Stores.Map` gives. |
| Engine.Runtime.AddMapEdge | src/effector/__tests__/store/index.test.js:15-17 | Adds the `.map` edge node, giving the world `Stores.MapEdge` gives. |
| Engine.Runtime.AddWatch | src/effector/__tests__/store/index.test.js:19 | Leaves the world `Stores.Watch` gives (one immediate call recorded) and returns the subscription of the new node. |
| Engine.Runtime.AddUnitWatch | src/effector/__tests__/store/index.test.js:142 | Leaves the world `Stores.WatchUnit` gives and returns the subscription under the unit. |
| Engine.Runtime.Unsubscribe | src/effector/__tests__/store/index.test.js:128 | Leaves the world `Stores.Unsubscribe` gives. |
| Engine.Runtime.RunCmd | src/effector/stdlib/index.h.js:35-90 | Running one command in place changes the cell objects and the call record exactly as `Step` says, and reports stop/continue and the value as `Step` does. `update` overwrites `StateRef.current`. |
| Engine.Runtime.RunSeq | src/effector/stdlib/index.h.js:95 | The loop over a node's sequence leaves the cells and calls that `Exec` computes, and stops exactly when `Exec` stops. |
| Engine.Runtime.ServeVisit | src/effector/stdlib/index.h.js:94-95 | Serving one visit in place matches `VisitNode`: the same heap and the same visits handed on. |
| Engine.Runtime.ServeLevel | src/effector/stdlib/index.h.js:94 | Serving a generation, visit by visit, matches `ProcessLevel`. |
| Engine.Runtime.ServeGeneration | src/effector/stdlib/index.h.js:94 | Serving one generation keeps the promised end state of the whole activation. |
| Engine.Runtime.DrainAll | src/effector/stdlib/index.h.js:94 | Generation after generation until none is left, the runtime's cells and calls end as `Drain` says. |
| Engine.Runtime.Launch | src/effector/__tests__/store/index.test.js:25 | Calling a unit leaves the runtime in the world `Stores.Fire` gives; the graph is unchanged. |
| Engine.Store.constructor | src/effector/__tests__/store/index.test.js:13 | A store object is bound to its runtime, node and cell, and has no handlers yet. |
| Engine.Store.GetState | src/effector/__tests__/store/index.test.js:21-23 | `getState()` returns the contents of the store's cell, which is `Stores.GetState` of the runtime's world. |
| Engine.Store.On | src/effector/__tests__/store/index.test.js:13 | Returns the store itself and records the new edge node as the handler for the trigger, keeping the store's invariant. The runtime becomes `On(Cleared(old, trigger, handlers))`. |
| Engine.Store.Off | src/effector/__tests__/store/index.test.js:211 | Returns the store itself and forgets the trigger's handler, keeping the store's invariant. The runtime becomes `Cleared(old, trigger, handlers)`, and the handler that was cut has no parent left, so `Stores.OffDetaches` applies to what the trigger fires next. |
| Engine.Store.Derive | src/effector/__tests__/store/index.test.js:15-17 | The graph work of `.map` leaves the world `Stores.Map` gives and keeps this store's invariant. |
| Engine.WiredGrow | src/effector/__tests__/store/index.test.js:13-19 | Adding nodes, and children of one node that are new nodes, keeps every handler of a store a child of its trigger with that trigger as its only parent. |
| Engine.ClearedWired | src/effector/__tests__/store/index.test.js:211 | `.off(t)` keeps the other handlers wired and leaves the handler of `t` with no parent. |
| Engine.OnWired | src/effector/__tests__/store/index.test.js:13 | The edge node `.on(t)` adds is wired as the handler of `t`, beside the store's other handlers. |
| Engine.HandleWired | src/effector/__tests__/store/index.test.js:13 | `.on(t)` on a store that already handles `t` replaces the old handler, and every handler stays wired. |
| Engine.MapWired | src/effector/__tests__/store/index.test.js:15-17 | `.map` keeps the source store's handlers wired. |
| Engine.Store.Map | src/effector/__tests__/store/index.test.js:15-17 | Returns a fresh derived store on a fresh cell. The runtime becomes `Stores.Map` of the old world. |
| Engine.Store.Watch | src/effector/__tests__/store/index.test.js:19 | Returns the unsubscribe handle; the runtime becomes `Stores.Watch` of the old world. |
| Engine.Store.WatchUnit | src/effector/__tests__/store/index.test.js:142 | Returns the unsubscribe handle; the runtime becomes `Stores.WatchUnit` of the old world. |
| LiveScenarios.UndefinedRefused | src/effector/__tests__/store/index.test.js:6-8 | `createStore(undefined)` on a live runtime fails. |
| LiveScenarios.OffReturnsStore | src/effector/__tests__/store/index.test.js:225-229 | `a.on(newWord, ...)` and `a.off(newWord)` both return `a` itself. |
| LiveScenarios.WordStores | src/effector/__tests__/store/index.test.js:12-17 | Building the word stores on a fresh runtime yields the word chain: a, b and sum on nodes 1, 3 and 5, over three fresh cells. |
| LiveScenarios.WatchSum | src/effector/__tests__/store/index.test.js:19 | `sum.watch(spy)` on the live stores adds the watcher as node 7 and keeps them live. |
| LiveScenarios.States | src/effector/__tests__/store/index.test.js:21-23 | Reading `getState()` of a, b and sum yields the cells and changes nothing. |
| LiveScenarios.NewWord | src/effector/__tests__/store/index.test.js:25-29 | `newWord(word)` on the live stores leaves the runtime at `Fire(old, newWord, word)` and returns the new states. |
| LiveScenarios.MappingRun | src/effector/__tests__/store/index.test.js:25-41 | Fired in turn at the watched chain, 'lol', 'long word' and '' give 'lol'/3/7 and 'long word'/9/16, and then a spy record of exactly [4, 7, 16]. |
| LiveScenarios.Words | src/effector/__tests__/store/index.test.js:21-41 | The live stores read 'word'/4/4, 'lol'/3/7 and 'long word'/9/16, and the spy record is [4, 7, 16] after `newWord('')`. |
| LiveScenarios.BasicMapping | src/effector/__tests__/store/index.test.js:11-42 | The whole basic-mapping test on a fresh runtime: the three expected state triples and three spy calls, with 4, 7 and 16. |
| LiveScenarios.Unwatch | src/effector/__tests__/store/index.test.js:128 | `unsub()` on the live stores leaves the world `Stores.Unsubscribe` gives. |
| LiveScenarios.UnsubscribeRun | src/effector/__tests__/store/index.test.js:123-131 | 'lol', then 'long word [1]', then the unsubscribe, then 'long word _ [2]' give 7, 20 and 35 for sum. The spy record is [4, 7, 20]. |
| LiveScenarios.UnsubscribeWords | src/effector/__tests__/store/index.test.js:123-131 | The unsubscribe test's calls on the watched live stores give the expected states and exactly three spy calls. |
| LiveScenarios.Unsubscribing | src/effector/__tests__/store/index.test.js:111-132 | The whole unsubscribe test on a fresh runtime: the stores keep following the word after `unsub()`, and the spy stays at three calls (4, 7, 20). |

## Left out

- Asynchronous effects are left out: `createEffect(...).use(handler)` and promise completion. An effect is a unit that activates synchronously with its payload, which is all the watch tests use.
- The `spy`/`getSpyCalls`/`argumentHistory` fixtures are replaced by the runtime's record of `Call(node, args)` entries.
- `NodeMeta`, `fullName` and the `meta` maps are carried as data but have no effect on behaviour.
- The `domain` kind exists only as a `Kind` value; domains are not modelled.
- The text of the `createStore(undefined)` error is not part of any contract. Only the failure is.
- `TypeDef` is not modelled as a separate type. Each `Cmd` variant carries its own `id`, and `Type`/`Group` give its `type` and `group`.
- IDs are natural numbers handed out by counters, not strings. Node references are arena positions rather than object links.
- JavaScript's `any` is closed down to `undefined`, `null`, integers, strings and arrays. `undefined` doubles as the "no value" result of a `compute`. Arbitrary scope dictionaries are maps from names to cells.
- Diamond deduplication and queuing across activations are left out. `barrier` passes its value through, and an activation that fires a unit from inside a callback is not modelled. The tests exercise linear chains only.
- Stores.On: requires the trigger's rank plus one to be below the store's rank, which JavaScript does not demand. Ranks are the model's own bookkeeping that makes activations terminate; every event, effect and root store in the tests meets this requirement.
- Engine.Store.On: same rank requirement as `Stores.On`.
- Stores.Fire: its own contract states only that the graph is kept and the call record grows. What an activation does to cells and calls is stated by `FireWord`, `FireInc`, `HookedSpy`, `FireAvoids` and the other scenario lemmas.
- Graphs.Resolve: carries no contract. `Graphite` has no recursive case, so resolution takes at most one indirection by construction.
- Graphs.Cmd.Group: the constant 'cmd', with no contract of its own.
- Engine: the live, imperative form of the `.off` test (lines 190-224) is not driven through the objects. Its behaviour is proved on the pure world in `StoreScenarios.OffSilences`, and that `.off` returns the store is proved live in `LiveScenarios.OffReturnsStore`. The `.watch`-with-events, effects and handler-argument tests are likewise proved on the pure world only.
- NestedSkipping: the mapper `f` is a parameter constrained only by `f(null) == undefined`, which is what the test's `f` returns for `null`. The property access `a.nice` in `g` is not modelled, because `g` is never applied.
- The order of `from` is recorded but never read, because traversal follows `next` only.
- Executor.Step: an `update` compares the new value with the cell's contents structurally. JavaScript's `===` compares arrays by reference, so two equal but distinct arrays count as a change there and not here. A user-supplied comparator is not modelled either.
- Callbacks (reducers, mappers, filters and watchers) are total functions. An exception thrown by a callback, and what it does to an activation half done, are not modelled.
- Stores.WatchUnit: a `watch(unit, fn)` watcher reads the store's state when its own node is visited, in the generation right after its unit's. A store that the same activation updates in a later generation is read before that update. effector runs such effect-like work after the pure updates have settled; the model has one lane only, so it does not capture that ordering. The tests never fire a store and its hooked unit in one activation.
- StoreScenarios.Length: `word.length` is the number of characters in the model. JavaScript counts UTF-16 code units, so the two agree, and `FireWord` matches JavaScript, only for words whose characters lie in the Basic Multilingual Plane.
