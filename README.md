# Router navigation protocol, in Dafny

This project models the `Router` class of the core package
(`packages/core/src/router.ts`). The router is the public entry point for
navigation. It turns a caller's request into a fully defaulted visit
descriptor, then runs a fixed protocol:

1. the veto hooks;
2. the choice of a lane (sync or async);
3. an interrupt of that lane;
4. saving scroll regions;
5. a prefetch store lookup;
6. either a replay of the stored entry or a send on the lane.

Around the protocol sit the method helpers, `reload`, `prefetch`, the cache
lookups, cancellation, polling, history passthroughs and the loading of
deferred props.

Layout:

- `optional.dfy` (`Optional`): `Option` (a key present or omitted) and `Outcome` (success or a thrown error's message).
- `visit_builder.dfy` (`VisitBuilder`): the pure part.
  - Options, visit descriptors and callbacks.
  - `getPendingVisit` and `getVisitEvents`.
  - The option merges of `visit`, the helpers, `reload`, `prefetch`/`getPrefetchParams` and `poll`, with lemmas on the descriptor each merge ends up building.
- `collaborators.dfy` (`Collaborators`): what the router's collaborators look like from the router.
  - The calls the router makes into them (`Call`) and the answers they give (`Env`).
  - The projection of a call trace onto each request lane (`LaneCalls`) and the requests a lane is sent (`Sends`).
  - Lemmas about concatenating traces.
- `protocol.dfy` (`Protocol`): each operation as the exact sequence of calls it makes, and the properties of those sequences.
- `router.dfy` (`Routing`): the `Router` class.
  - The two request streams are fields that record what each lane was asked to do.
  - A ghost `calls` records every call into a collaborator, in order.
  - `Valid()` says that each lane field is exactly its share of `calls`.
  - Every public method ensures that it appends exactly the protocol function of its operation to `calls`, and keeps `Valid()`.

Collaborators (the request streams' behaviour, the prefetch store, progress,
scroll, the global before-event, the poller, history) appear only as the calls
the router makes into them. What they answer during a call is a parameter
`env: Env`:

- the verdict of the global before-event;
- whether a caller's handler returns exactly `false`;
- the store's `get`, `findCached` and `findInFlight` lookups.

The current page is a parameter `page: PageState`. The URL transformer is the
router's constant `transform`.

Options are records whose fields are `Option`s: `None` is a key the caller
omitted. `method` and `fresh` are reserved words in Dafny, so those fields are
named `httpMethod` and `isFresh`.

Two points of the code that the model keeps as written:

- `visit` reveals progress with the `inFlight` flag of whatever the store's
  `get` hands back (router.ts:167-171), so the store's answer in the model
  carries `inFlight`.
- `prefetch` hides progress only after the veto hooks let it through
  (router.ts:209-213); a vetoed prefetch makes only the hook calls
  (`PrefetchVetoed`).

## Model

| member | source | states |
|---|---|---|
| VisitBuilder.GetPendingVisit | packages/core/src/router.ts:251-295 | the status flags start false; every field is the caller's value when given and otherwise its default (method get, empty data/only/except/headers/reset, false flags, brackets format, showProgress true, frame "_top"); `url` and `data` are exactly the transformer's output for the merged data, method, multipart flag and array format |
| VisitBuilder.GetVisitEvents | packages/core/src/router.ts:297-310 | all ten callbacks are present; each is the caller's handler when one is given, and the no-op otherwise |
| VisitBuilder.GetPollSettings | packages/core/src/router.ts:133-138 | the poller auto-starts unless the caller passes `autoStart: false`, and keeps alive only when the caller passes `keepAlive: true` |
| VisitBuilder.VisitShowsProgressUnlessAsync | packages/core/src/router.ts:140-144 | when the caller omits `showProgress`, a visit shows progress exactly when it is not async; a given `showProgress` wins |
| VisitBuilder.HelperDescriptor | packages/core/src/router.ts:72-86 | get/post/put/patch force their own method whatever `options.method` says; the transformer receives the `data` argument, or `{}`, instead of `options.data`; `preserveState` is the caller's if given, else true for post/put/patch and false for get; scroll, async and `only` are the caller's |
| VisitBuilder.DeleteDescriptor | packages/core/src/router.ts:88-90 | delete forces its method, defaults `preserveState` to true unless given, and transforms the caller's own `data` |
| VisitBuilder.ReloadDescriptor | packages/core/src/router.ts:97-106 | a reload is always scroll- and state-preserving and async; progress is hidden unless the caller asks for it; headers are the caller's keys plus `Cache-Control`, mapped to `no-cache` whatever the caller set, with every other header kept; `only` is the caller's |
| VisitBuilder.GetPrefetchParams | packages/core/src/router.ts:239-249 | the request key is always async, without progress and marked prefetch, whatever the caller said, and its callbacks are `getVisitEvents(options)` |
| VisitBuilder.PrefetchDescriptor | packages/core/src/router.ts:199-206 | the descriptor `prefetch` builds is the same one `getPrefetchParams` builds: forced async, without progress and marked prefetch, while method, `only` and `except` stay the caller's |
| Protocol.NoHookNoVeto | packages/core/src/router.ts:148-151 | without an `onBefore`, a visit goes ahead exactly when the global before-event lets it |
| Protocol.VisitVetoed | packages/core/src/router.ts:148-151 | a vetoed visit makes only the one or two hook calls: neither lane is interrupted or sent to, no scroll is saved, the store is not consulted and progress is not revealed |
| Protocol.VisitOrder | packages/core/src/router.ts:146-176 | a visit that goes ahead runs `onBefore`, then the before-event, then the interrupt of its lane; the store lookup with the request parameters comes third from last; the last call is the store's `use` of the entry on a hit and the send on the lane on a miss |
| Protocol.VisitSavesScroll | packages/core/src/router.ts:157-160 | a visit that goes ahead saves the current page's scroll regions exactly when the page is not cleared and the caller does not preserve the URL |
| Protocol.VisitLanes | packages/core/src/router.ts:153-175 | the lane is async for async visits and sync otherwise; that lane receives exactly one interrupt, followed by the request exactly when the store has no entry; the other lane receives nothing |
| Protocol.VisitCacheHit | packages/core/src/router.ts:167-171 | on a store hit, progress is revealed with the entry's `inFlight`, the entry is used with the request parameters, and no request is sent on either lane |
| Protocol.VisitCacheMiss | packages/core/src/router.ts:167-175 | on a miss, progress is revealed with true just before the request (built from the parameters and the current page) is sent on the visit's lane, and it is the one request that lane is sent |
| Protocol.ReloadWithoutWindow | packages/core/src/router.ts:92-95 | without a window, `reload` makes no call at all |
| Protocol.ReloadStaysAsync | packages/core/src/router.ts:92-107 | whatever the options and whatever the hooks answer, `reload` never touches the sync lane |
| Protocol.ReloadSendsOnce | packages/core/src/router.ts:92-107 | a reload that neither its `onBefore` nor the before-event vetoes, and that misses the store, sends exactly one request on the async lane, with the reload's parameters and the caller's `only` |
| Protocol.DeferredReloads | packages/core/src/router.ts:315-319 | there is one reload per deferred group, in order, and the i-th is `{ only: group i }` with nothing else set |
| Protocol.DeferredReloadsStep | packages/core/src/router.ts:316-318 | the reloads for the first i + 1 groups make the calls of those for the first i, followed by those of `reload({ only: group i })` |
| Protocol.NoDeferredNoReloads | packages/core/src/router.ts:312-315 | a frame the page does not know, or one without deferred props, gets no reload and no call |
| Protocol.DeferredStaysAsync | packages/core/src/router.ts:312-320 | loading deferred props never touches the sync lane |
| Protocol.ReloadsSendOneEach | packages/core/src/router.ts:316-318 | reloads without `onBefore`, run with a window while the before-event lets everything through and the store answers nothing, send one async request each, in order, each carrying its reload's `only` |
| Protocol.DeferredSendsOnePerGroup | packages/core/src/router.ts:312-320 | under those conditions, loading deferred props sends exactly one async request per group, in group order, the i-th with `only` equal to the i-th group's props |
| Protocol.PrefetchOutcome | packages/core/src/router.ts:195-197 | a prefetch succeeds exactly when `options.method` is `get`, and fails with "Prefetch requests must use the GET method" otherwise, an omitted method included |
| Protocol.PrefetchRejectsNonGet | packages/core/src/router.ts:194-197 | a prefetch that is not GET fails before any hook runs, any lane is touched or the store is called |
| Protocol.PrefetchRegisters | packages/core/src/router.ts:199-228 | a GET prefetch that goes ahead makes five calls: the two hooks, then hiding progress, then interrupting the async lane, then registering with the store the very key `getPrefetchParams` builds; it sends nothing itself and never touches the sync lane |
| Protocol.PrefetchVetoed | packages/core/src/router.ts:206-211 | a vetoed GET prefetch makes only the hook calls |
| Routing.Router.constructor | packages/core/src/router.ts:35-48 | the router keeps its frame and transformer; both lanes start empty and consistent with the empty trace |
| Routing.Router.Visit | packages/core/src/router.ts:140-176 | `visit` makes exactly the calls of `VisitProtocol`, in order, and each lane field grows by exactly its share |
| Routing.Router.RunVetoHooks | packages/core/src/router.ts:146-151 | runs `onBefore`, and the before-event only when `onBefore` did not return false; goes ahead exactly when neither vetoes |
| Routing.Router.Dispatch | packages/core/src/router.ts:153-175 | after the veto point, makes the interrupt, the optional scroll save, the store lookup and the replay or send, in that order |
| Routing.Router.Get | packages/core/src/router.ts:72-74 | `get` is `visit` with the helper options for GET |
| Routing.Router.Post | packages/core/src/router.ts:76-78 | `post` is `visit` with the helper options for POST |
| Routing.Router.Put | packages/core/src/router.ts:80-82 | `put` is `visit` with the helper options for PUT |
| Routing.Router.Patch | packages/core/src/router.ts:84-86 | `patch` is `visit` with the helper options for PATCH |
| Routing.Router.Delete | packages/core/src/router.ts:88-90 | `delete` is `visit` with the delete options |
| Routing.Router.Reload | packages/core/src/router.ts:92-107 | `reload` does nothing without a window, and otherwise visits the window's URL with the reload overrides |
| Routing.Router.Cancel | packages/core/src/router.ts:124-126 | the sync lane receives one cancel; the async lane is unchanged |
| Routing.Router.CancelAll | packages/core/src/router.ts:128-131 | both lanes receive one cancel, the async lane's first |
| Routing.Router.Poll | packages/core/src/router.ts:133-138 | registers with the poller the interval, the reload options that each tick replays and the defaulted settings; no lane is touched |
| Routing.Router.LoadDeferredProps | packages/core/src/router.ts:312-320 | a loop that issues, in order, one `reload({ only: group })` per deferred group of the router's own frame; the calls are exactly those of `ReloadsProtocol` over `DeferredReloads` |
| Routing.Router.ReloadGroup | packages/core/src/router.ts:316-318 | one step of the loop: `reload({ only: group i })` appends its calls after those of the groups before it, so the trace stays `ReloadsProtocol` over the first i + 1 reloads |
| Routing.Router.Prefetch | packages/core/src/router.ts:194-229 | the result is `PrefetchOutcome(options)`, and the calls are exactly those of `PrefetchProtocol` |
| Routing.Router.PrefetchExecutor | packages/core/src/router.ts:224-226 | the executor handed to the store sends the request on the async lane and on no other |
| Routing.Router.GetCached | packages/core/src/router.ts:178-180 | returns the store's resolved entry for the key `getPrefetchParams` builds |
| Routing.Router.GetPrefetching | packages/core/src/router.ts:190-192 | returns the store's in-flight entry for the key `getPrefetchParams` builds |
| Routing.Router.Flush | packages/core/src/router.ts:182-184 | removes the store's entry for the key `getPrefetchParams` builds; no lane is touched |
| Routing.Router.FlushAll | packages/core/src/router.ts:186-188 | empties the store; no lane is touched |
| Routing.Router.Remember | packages/core/src/router.ts:109-111 | stores the data under the router's frame and the key, `"default"` when the key is omitted |
| Routing.Router.Restore | packages/core/src/router.ts:113-115 | reads back under the router's frame and the key, `"default"` when the key is omitted |
| Routing.Router.ClearHistory | packages/core/src/router.ts:231-233 | clears history; no lane is touched |
| Routing.Router.DecryptHistory | packages/core/src/router.ts:235-237 | asks history to decrypt; no lane is touched |

## Left out

- Request streams (`RequestStream`): what `interruptInFlight`, `cancelInFlight` and `send` do inside a lane (the single slot, interruption against cancellation, concurrency) is not part of this model. The lanes record only the calls they receive.
- Prefetch store (`prefetchedRequests`): TTL expiry, single-flight de-duplication, what `use` replays and how entries move from in-flight to resolved are not modelled. The store is the per-call answers in `Env` plus the calls the router makes into it, not a cache map the model keeps.
- `Request.create`, `transformUrlAndData`, `Scroll.save`, `revealProgress`/`hideProgress`, `fireBeforeEvent`, `polls` and `history`: their code is not part of this model. `transformUrlAndData` is an uninterpreted function; the others are recorded calls whose results come from `Env`.
- `Env` and `page` are fixed for the duration of one router call, and for the whole of `loadDeferredProps`, so the model does not capture a collaborator whose answer changes because of the router's own earlier calls within that call.
- Constructor wiring: `currentPage.init`, `InitialVisit.handle`, `eventHandler.init`, the `missingHistoryItem` listener and the `navigate` subscription that triggers `loadDeferredProps` are event plumbing.
- `on`: it only forwards to `eventHandler.onGlobalEvent`.
- Return values: what `restore`, `decryptHistory` and `poll` return comes from history and the poller and is not modelled; those methods record their calls only.
- `window` is the parameter `location: Option<string>`: `None` when there is no window, and otherwise `window.location.href`.
- Options: a key that is present but holds `undefined`, and falsy callbacks other than an omitted one, are not distinguished from an omitted key. `URL` objects as targets are treated as their string form.
- The descriptor is a value. The hooks receive the visit object by reference and could change it before `visit` reads `async` and `preserveUrl`, and the model does not capture such a change.
- Re-entrance: a hook, or the store during `add`, could call back into the router in the middle of an operation. The model treats each operation as one uninterrupted sequence of calls.
- `prefetch`'s third argument: the source destructures it, so omitting it throws before the method check. In the model, `cacheFor: None` stands for an argument `{}` without `cacheFor`, and an omitted argument is not modelled.
- `remember`'s `data` can be any value in the source; the model takes a string, because history's storage is not part of this model.
- `getPendingVisit`'s third parameter `pendingVisitOptions`: every call site passes nothing, so it is left out.
- Routing.Router.Poll: records the reload options each tick would replay, but does not model the ticks themselves, since they come from the poller's timer.
- Payloads are string maps. File uploads and nested data, which matter only inside `transformUrlAndData`, are not modelled.
- The Svelte and React adapter files (`packages/svelte/src/createInertiaApp.js` and the re-export files) are view bootstrapping and type declarations, with no router logic.
