# H5P player XBlock: block queue and xAPI filter

This project models the behaviour of the client script of an XBlock that embeds
H5P interactive content in a learning-management page
(`h5pxblock/static/js/src/h5pxblock.js`). It covers the two pieces of logic in
that script:

- **The block queue.** Every `H5PPlayerXBlock(runtime, element, args)` call
  appends an entry to the page-wide array `window.H5PBlocksQueue`. If the flag
  `window.H5PBlocksQueueProcessing` is not set, the call starts the worker
  `processNextBlock`. The worker sets the flag, shifts the head entry, awaits
  its initialisation and then calls itself again. On an empty queue it clears
  the flag. One entry's initialisation (`initH5PBlock`) loads the player library,
  either through the page's module loader or through `loadJS`. `loadJS` fetches
  the script only when `window.H5PStandalone` is not yet set. Then
  `initWithH5P` builds the player, unless the mount element `h5p-<player_id>` is
  missing or already holds an `.h5p-iframe-wrapper` child.
- **The xAPI filter.** Each constructed player subscribes a handler to the
  global event dispatcher. The handler POSTs `event.data.statement` to its
  block's result handler only when the statement is a completion: its
  `verb.display["en-US"]` is `answered`, `completed` or `consumed`. It must also
  be a root statement: `context.contextActivities.parent[0].id` is falsy.

Modules:

- `Js` (js.dfy) models JavaScript values (`Json`), property access (`Get`),
  truthiness (`Truthy`), the guarded chains `a && a.b && a.b.c` (`Chain`) and
  path access that reads like the optional chain `?.` (`Walk`).
- `XApi` (xapi.dfy) holds the handler (`HandleXApi`) and the reference predicate
  `RootCompletion` it is proved equal to.
- `ScriptLoading` (script_loading.dfy) holds `loadJS`: the pure step `Load` and
  the class `ScriptLoader` with `loaded` and a fetch counter.
- `Init` (init.dfy) gives the settlement of `initWithH5P` and of `initH5PBlock`
  as functions. The third-party outcomes are inputs: the library arrives or
  not; the construction succeeds, throws or never settles.
- `BlockQueue` (block_queue.dfy) is the page as a state machine over discrete
  steps: an embed call, the settling of the awaited initialisation, and an xAPI
  event. It also holds the page invariant and the lemmas about runs of steps.
- `Scheduler` (scheduler.dfy) is the class `BlockScheduler`. Its fields are the
  queue, the flag, the worker, the mount elements, the handlers and the POSTs.
  Each of its methods is specified by the `BlockQueue` step it performs.

Three consequences of the code, each proved in the model:

- **A failing entry stops the queue.** If an entry's initialisation rejects,
  the `await` on line 26 throws before the recursive call on line 27. On the
  module-loader path a rejection is never passed to `resolve` (lines 39-43),
  and a failed script fetch never resolves `loadJS` (lines 169-171). Either way
  no later entry is initialised, the remaining entries stay queued and the flag
  stays set for good (`FailureStallsQueue`, `StallIsPermanent`).
- **Each statement is posted once per constructed player.** Each constructed
  player adds one more handler to the global dispatcher (line 94). Each handler
  posts every root completion to its own block's result handler. With several
  players on a page, one statement reaches every block's result handler
  (`BlockQueue.Dispatch`).
- **A skipped entry still loads the library.** `loadJS` runs before the mount
  check (lines 47-48, 60-61). So an entry whose mount element is missing still
  causes the one script fetch, and it hangs the queue if that fetch fails.

## Model

| member | source | states |
|---|---|---|
| `Js.Get` | h5pxblock/static/js/src/h5pxblock.js:105-107 | a falsy value carries no property: for false, 0 and "" this is JavaScript's result; for undefined and null, where JavaScript throws, the model gives undefined (the handler's guards never reach that case) |
| `Js.Truthy` | h5pxblock/static/js/src/h5pxblock.js:97-127 | a value is truthy if and only if it is not undefined, null, false, 0 or the empty string, the test behind lines 97, 108 and 127 |
| `Js.Walk` | h5pxblock/static/js/src/h5pxblock.js:102 | once a path step finds nothing, the rest of the path reads as undefined, so a read after a passed guard gives the guarded value |
| `Js.Chain` | h5pxblock/static/js/src/h5pxblock.js:96 | a guarded chain `a && a.b && ...` is truthy exactly when the plain path value is truthy, and then it equals that value |
| `XApi.HandleXApi` | h5pxblock/static/js/src/h5pxblock.js:94-141 | the handler sends a statement if and only if it is present, its "en-US" verb display is one of answered/completed/consumed, and `parent[0].id` is falsy; what it sends is `event.data.statement` itself |
| `XApi.CompletionVerbIsTruthy` | h5pxblock/static/js/src/h5pxblock.js:104-116 | every completion verb passes the `validVerb` test, so that early return never decides on its own |
| `XApi.ChildStatementNotSent` | h5pxblock/static/js/src/h5pxblock.js:117-127 | a statement whose first parent activity has a truthy id is never sent |
| `XApi.MissingLocaleNotSent` | h5pxblock/static/js/src/h5pxblock.js:104-111 | a statement without an "en-US" verb display is never sent |
| `XApi.CompletedRootSent` | h5pxblock/static/js/src/h5pxblock.js:113-132 | a statement with a completion verb and no context is sent, unchanged |
| `XApi.CompletedChildNotSent` | h5pxblock/static/js/src/h5pxblock.js:117-127 | the same statement with a parent activity whose id is a non-empty string is not sent |
| `ScriptLoading.Load` | h5pxblock/static/js/src/h5pxblock.js:154-173 | a loaded library resolves at once with no fetch; otherwise exactly one fetch is made; the call resolves if and only if the library is loaded afterwards, which happens if and only if it was loaded before or the fetch succeeded |
| `ScriptLoading.LoadedStaysCached` | h5pxblock/static/js/src/h5pxblock.js:156-158 | once loaded, any sequence of further calls fetches nothing and changes nothing |
| `ScriptLoading.FetchedAtMostOnce` | h5pxblock/static/js/src/h5pxblock.js:155-167 | calls made one after another (each after the previous resolved) fetch at most once; after a successful first fetch the library stays loaded with one fetch |
| `ScriptLoading.ScriptLoader.constructor` | h5pxblock/static/js/src/h5pxblock.js:156 | the page starts without the library and with no fetch |
| `ScriptLoading.ScriptLoader.LoadJs` | h5pxblock/static/js/src/h5pxblock.js:154-173 | the new `loaded`/fetch count and whether the promise resolves are those of `Load` on the old state |
| `Init.InitWithH5P` | h5pxblock/static/js/src/h5pxblock.js:60-147 | resolves with no value if and only if the mount element is missing or already holds a wrapper; resolves with the success marker if and only if the mount is ready and construction succeeds; rejects with the error's message if and only if the mount is ready and construction throws |
| `Init.ThroughModuleLoader` | h5pxblock/static/js/src/h5pxblock.js:38-44 | the promise around the module loader never rejects; a rejection of the inner init leaves it pending; resolution passes through unchanged |
| `Init.InitH5PBlock` | h5pxblock/static/js/src/h5pxblock.js:34-50 | a fetch happens only on the `loadJS` path and only when the library is not loaded, and the loader state there is that of one `loadJS` call; the init resolves if and only if the library is on hand and the mount is skipped or the player is built; it rejects only on the `loadJS` path with a construction error; a player is built if and only if the library is on hand, the mount is ready and construction succeeds, which is exactly when it resolves with the success marker; a skipped mount constructs nothing and resolves with no value if it settles |
| `Init.SucceedingInputsResolve` | h5pxblock/static/js/src/h5pxblock.js:34-50 | with the library arriving and construction succeeding, the init resolves on both loading paths |
| `BlockQueue.MountElementId` | h5pxblock/static/js/src/h5pxblock.js:60 | the mount element's id is `h5p-` followed by the player id, with nothing else |
| `BlockQueue.SameMountIffSamePlayer` | h5pxblock/static/js/src/h5pxblock.js:60 | two entries look up the same mount element if and only if they have the same player id |
| `BlockQueue.MountOf` | h5pxblock/static/js/src/h5pxblock.js:60-61 | an element missing from the page is `Absent`; any other result is the state of the element that the page holds under that id |
| `BlockQueue.HandlerPosts` | h5pxblock/static/js/src/h5pxblock.js:127-133 | one handler POSTs if and only if the event carries a root completion, and then exactly one POST of `event.data.statement` to its own block |
| `BlockQueue.ProcessNext` | h5pxblock/static/js/src/h5pxblock.js:19-31 | the flag is set afterwards if and only if the queue was non-empty; then the head is in flight and the rest stays queued in order; on an empty queue the worker stops; nothing else on the page changes |
| `BlockQueue.Embed` | h5pxblock/static/js/src/h5pxblock.js:2-16 | the entry joins the record of embedded entries at the tail; on first use the queue starts empty, the flag false, and the worker starts on this entry; with the flag clear (also after a drain) a worker starts at once on the queue's head; with a worker running, the entry is appended at the tail and nothing else changes; the loading path never changes |
| `BlockQueue.Resume` | h5pxblock/static/js/src/h5pxblock.js:23-31 | with no awaited initialisation nothing changes; otherwise the init's loader, mount and handler effects apply; on resolution the entry is finished and the worker takes the next head (recorded as started) or stops and clears the flag; on rejection (aborted) or no settlement (hung) the worker stalls on that entry with queue, flag and records unchanged |
| `BlockQueue.Dispatch` | h5pxblock/static/js/src/h5pxblock.js:94-141 | a non-root-completion event causes no POST; a root completion causes one POST per subscribed handler, in subscription order, each to that handler's block and carrying the statement |
| `BlockQueue.Emit` | h5pxblock/static/js/src/h5pxblock.js:94 | an event changes only the POST record, which keeps its earlier POSTs and grows by one per subscribed handler for a root completion and by none otherwise |
| `BlockQueue.InitialInv` | h5pxblock/static/js/src/h5pxblock.js:4-8 | a fresh page satisfies the page invariant |
| `BlockQueue.EmbedPreservesInv` | h5pxblock/static/js/src/h5pxblock.js:11-16 | an embed call keeps FIFO order, the flag/worker agreement, the fetch bound and the handler wiring |
| `BlockQueue.ResumePreservesInv` | h5pxblock/static/js/src/h5pxblock.js:23-31 | a settlement keeps the invariant: one entry in flight at most, a player only on a ready mount, at most one fetch |
| `BlockQueue.EmitPreservesInv` | h5pxblock/static/js/src/h5pxblock.js:127-133 | every POST issued carries a root completion to a subscribed block |
| `BlockQueue.ApplyPreservesInv` | h5pxblock/static/js/src/h5pxblock.js:2-32 | any single step keeps the page invariant |
| `BlockQueue.RunPreservesInv` | h5pxblock/static/js/src/h5pxblock.js:2-32 | any sequence of steps keeps the page invariant |
| `BlockQueue.PageGuarantees` | h5pxblock/static/js/src/h5pxblock.js:2-32 | from a fresh page, after any steps: entries start in embedding order; every started entry but the one in flight has resolved (the single worker holds at most one entry); the flag is set exactly while a worker exists; a cleared flag means an empty queue; at most one fetch; no mount element gets two players; every POST is a root completion |
| `BlockQueue.FailureStallsQueue` | h5pxblock/static/js/src/h5pxblock.js:26-27 | an init that rejects or never settles leaves the worker stalled on its entry for good: after any later steps the flag is still set, no further entry is started or resolved, and the queue keeps its entries in order |
| `BlockQueue.StallIsPermanent` | h5pxblock/static/js/src/h5pxblock.js:26-27 | after a rejection or a never-settling init, no later step starts an entry, resolves one, loads, constructs or clears the flag; the queue keeps its entries and only grows at the tail |
| `BlockQueue.DrainsWhenAllResolve` | h5pxblock/static/js/src/h5pxblock.js:19-31 | when every init has the library on hand and every construction succeeds, one settlement per queued entry empties the queue, clears the flag and resolves all embedded entries in order |
| `BlockQueue.RepeatedEmbedIsNoOp` | h5pxblock/static/js/src/h5pxblock.js:60-61 | an entry whose mount is missing or already initialised leaves the mount elements and subscribed handlers unchanged when its turn comes |
| `Scheduler.BlockScheduler.constructor` | h5pxblock/static/js/src/h5pxblock.js:4-8 | the page starts with no queue, the flag false, no worker and the library not loaded |
| `Scheduler.BlockScheduler.PlayerXBlock` | h5pxblock/static/js/src/h5pxblock.js:2-16 | the new state is `Embed` of the old; the invariant is kept |
| `Scheduler.BlockScheduler.ProcessNextBlock` | h5pxblock/static/js/src/h5pxblock.js:19-31 | the new state is `ProcessNext` of the old |
| `Scheduler.BlockScheduler.InitH5PBlock` | h5pxblock/static/js/src/h5pxblock.js:34-50 | settlement, loader state and construction are those of `Init.InitH5PBlock` for the entry's mount |
| `Scheduler.BlockScheduler.InitSettled` | h5pxblock/static/js/src/h5pxblock.js:26-27 | the new state is `Resume` of the old; the invariant is kept |
| `Scheduler.BlockScheduler.OnXApi` | h5pxblock/static/js/src/h5pxblock.js:94-141 | the new POSTs are `Dispatch` over the subscribed handlers; the invariant is kept |

## Left out

- Console logging throughout has no effect on behaviour.
- Handler URL construction (`runtime.handlerUrl`, lines 53-57) belongs to the host runtime. A block's URLs are identified by `Entry.block`.
- The options object and CDN URLs (lines 62-84) are not modelled. They are plain data passed to the third-party constructor.
- The player constructor and `H5P.externalDispatcher.on` (lines 89, 94) are third-party code. Their combined outcome (`Construction`) is an input. A successful construction is assumed to put an `.h5p-iframe-wrapper` child into the mount element.
- Showing and hiding the spinner and the mount element (lines 91-92) are DOM effects with no logic.
- The `$.ajax` POST and its done/fail callbacks (lines 129-139) are network I/O. A POST is an entry appended to `posts`, and its outcome is only logged. The body is the statement value itself, not its `JSON.stringify` text.
- The `require` and `$.getScript` loading is network I/O; its outcome is the input `libraryArrives`. Caching inside the module loader is not modelled.
- Promise and event-loop timing is reduced to discrete steps. An initialisation's effects (the fetch, construction, subscription) happen at the step where it settles. This is sound because only one initialisation is ever in flight.
- JavaScript numbers are integers in the model (non-integers and NaN are left out). Property access ignores the built-in `length` and numeric-string names on arrays and strings. The filter reads neither.
- Js.Get: reading a property of `undefined` or `null` gives `undefined` in the model, where JavaScript throws a TypeError. The handler guards every such read (lines 96, 104-107, 117-122), so its behaviour is unaffected; `Walk` therefore reads like the optional chain `?.`.
- Other scripts changing the page's DOM are not modelled.
- The queue entry's `args` fields other than `player_id` are not modelled. They feed only the options object.
