/**
 * The `Router` class: the public navigation entry point. Its two request
 * streams are fields that record the calls each lane receives; `calls` is the
 * ordered record of every call the router makes into a collaborator, and
 * `Valid()` says the lanes hold exactly their share of it. Every public
 * method is specified by the protocol function of the same operation.
 */
module Routing {
  import opened Optional
  import opened VisitBuilder
  import opened Collaborators
  import opened Protocol

  class Router {
    /** The frame this router serves (the constructor's `frame`). */
    const frame: string
    /** `transformUrlAndData`, a pure import of the router. */
    const transform: Transformer

    /** What `syncRequestStream` (one slot, interruptible) has been asked to do, in order. */
    var syncRequestStream: seq<StreamCall>
    /** What `asyncRequestStream` (unbounded, not interruptible) has been asked to do, in order. */
    var asyncRequestStream: seq<StreamCall>

    /** Every call into a collaborator, in order. */
    ghost var calls: seq<Call>

    ghost predicate Valid()
      reads this
    {
      syncRequestStream == LaneCalls(calls, Sync) && asyncRequestStream == LaneCalls(calls, Async)
    }

    constructor (frame: string, transform: Transformer)
      ensures Valid()
      ensures this.frame == frame && this.transform == transform
      ensures calls == [] && syncRequestStream == [] && asyncRequestStream == []
    {
      this.frame := frame;
      this.transform := transform;
      syncRequestStream, asyncRequestStream := [], [];
      calls := [];
    }

    /** A call into a collaborator other than a request stream. */
    method Note(c: Call)
      requires Valid() && !c.OnStream?
      modifies this
      ensures Valid() && calls == old(calls) + [c]
      ensures syncRequestStream == old(syncRequestStream) && asyncRequestStream == old(asyncRequestStream)
    {
      LaneCallsAppend(calls, [c], Sync);
      LaneCallsAppend(calls, [c], Async);
      LaneCallsOne(c, Sync);
      LaneCallsOne(c, Async);
      calls := calls + [c];
    }

    /** A call on one request stream; the other stream is left alone. */
    method OnLane(lane: Lane, sc: StreamCall)
      requires Valid()
      modifies this
      ensures Valid() && calls == old(calls) + [OnStream(lane, sc)]
      ensures lane == Sync ==> syncRequestStream == old(syncRequestStream) + [sc] && asyncRequestStream == old(asyncRequestStream)
      ensures lane == Async ==> asyncRequestStream == old(asyncRequestStream) + [sc] && syncRequestStream == old(syncRequestStream)
    {
      var c := OnStream(lane, sc);
      LaneCallsAppend(calls, [c], Sync);
      LaneCallsAppend(calls, [c], Async);
      LaneCallsOne(c, Sync);
      LaneCallsOne(c, Async);
      if lane == Sync {
        syncRequestStream := syncRequestStream + [sc];
      } else {
        asyncRequestStream := asyncRequestStream + [sc];
      }
      calls := calls + [c];
    }

    /** `visit(href, options)`. */
    method Visit(href: string, options: VisitOptions, env: Env, page: PageState)
      requires Valid()
      modifies this
      ensures Valid()
      ensures calls == old(calls) + VisitProtocol(transform, href, options, env, page)
    {
      var visit := GetPendingVisit(href, VisitDefaults(options), transform);
      var events := GetVisitEvents(options);
      var proceed := RunVetoHooks(visit, events, env);
      if proceed {
        Dispatch(visit, events, env, page);
      }
    }

    /** Runs the caller's `onBefore` and, unless it returned false, the global before-event; says whether the visit goes ahead. */
    method RunVetoHooks(visit: PendingVisit, events: VisitCallbacks, env: Env) returns (proceed: bool)
      requires Valid()
      modifies this
      ensures Valid()
      ensures proceed == Proceeds(env, visit, events)
      ensures calls == old(calls) + VetoStage(env, visit, events)
    {
      Note(RunOnBefore(events.onBefore, visit));
      if HookVetoes(env, events.onBefore, visit) {
        return false;
      }
      Note(FireBeforeEvent(visit));
      proceed := env.beforeEvent(visit);
    }

    /** Steps 2 to 6 of `visit`: lane choice, interrupt, scroll, store lookup, replay or send. */
    method Dispatch(visit: PendingVisit, events: VisitCallbacks, env: Env, page: PageState)
      requires Valid()
      modifies this
      ensures Valid()
      ensures calls == old(calls) + DispatchStage(env, visit, events, page)
    {
      ghost var start := calls;
      var lane := if visit.async then Async else Sync;
      OnLane(lane, InterruptInFlight);
      ghost var interrupt := [OnStream(lane, InterruptInFlight)];
      if !page.cleared && !visit.preserveUrl {
        Note(SaveScroll(page.current));
      }
      ghost var scroll := ScrollStage(visit, page);
      assert calls == (start + interrupt) + scroll;
      ghost var scrolled := calls;
      var params := ActiveVisit(visit, events);
      Note(StoreGet(params));
      ghost var looked := calls;
      var prefetched := env.storeGet(params);
      if prefetched.Some? {
        Note(RevealProgress(prefetched.value.inFlight));
        Note(StoreUse(prefetched.value, params));
        AppendAssoc(looked, [RevealProgress(prefetched.value.inFlight)], [StoreUse(prefetched.value, params)]);
      } else {
        Note(RevealProgress(true));
        OnLane(lane, Send(Request(params, page.current)));
        AppendAssoc(looked, [RevealProgress(true)], [OnStream(lane, Send(Request(params, page.current)))]);
      }
      ghost var outcome := LookupOutcome(env, lane, params, page);
      assert calls == looked + outcome;
      AppendAssoc(start, interrupt, scroll);
      AppendAssoc(start, interrupt + scroll, [StoreGet(params)]);
      AppendAssoc(start, interrupt + scroll + [StoreGet(params)], outcome);
    }

    /** `get(url, data = {}, options = {})`. */
    method Get(href: string, data: Option<Payload>, options: VisitOptions, env: Env, page: PageState)
      requires Valid()
      modifies this
      ensures Valid()
      ensures calls == old(calls) + VisitProtocol(transform, href, HelperOptions(HttpMethod.Get, data, options), env, page)
    {
      Visit(href, HelperOptions(HttpMethod.Get, data, options), env, page);
    }

    /** `post(url, data = {}, options = {})`. */
    method Post(href: string, data: Option<Payload>, options: VisitOptions, env: Env, page: PageState)
      requires Valid()
      modifies this
      ensures Valid()
      ensures calls == old(calls) + VisitProtocol(transform, href, HelperOptions(HttpMethod.Post, data, options), env, page)
    {
      Visit(href, HelperOptions(HttpMethod.Post, data, options), env, page);
    }

    /** `put(url, data = {}, options = {})`. */
    method Put(href: string, data: Option<Payload>, options: VisitOptions, env: Env, page: PageState)
      requires Valid()
      modifies this
      ensures Valid()
      ensures calls == old(calls) + VisitProtocol(transform, href, HelperOptions(HttpMethod.Put, data, options), env, page)
    {
      Visit(href, HelperOptions(HttpMethod.Put, data, options), env, page);
    }

    /** `patch(url, data = {}, options = {})`. */
    method Patch(href: string, data: Option<Payload>, options: VisitOptions, env: Env, page: PageState)
      requires Valid()
      modifies this
      ensures Valid()
      ensures calls == old(calls) + VisitProtocol(transform, href, HelperOptions(HttpMethod.Patch, data, options), env, page)
    {
      Visit(href, HelperOptions(HttpMethod.Patch, data, options), env, page);
    }

    /** `delete(url, options = {})`. */
    method Delete(href: string, options: VisitOptions, env: Env, page: PageState)
      requires Valid()
      modifies this
      ensures Valid()
      ensures calls == old(calls) + VisitProtocol(transform, href, DeleteOptions(options), env, page)
    {
      Visit(href, DeleteOptions(options), env, page);
    }

    /** `reload(options = {})`; `location` is `window.location.href`, `None` when there is no window. */
    method Reload(options: VisitOptions, location: Option<string>, env: Env, page: PageState)
      requires Valid()
      modifies this
      ensures Valid()
      ensures calls == old(calls) + ReloadProtocol(transform, options, location, env, page)
    {
      if location.None? {
        return;
      }
      Visit(location.value, ReloadOverrides(options), env, page);
    }

    /** `cancel()`: only the sync lane is cancelled. */
    method Cancel()
      requires Valid()
      modifies this
      ensures Valid()
      ensures calls == old(calls) + [OnStream(Sync, CancelInFlight)]
      ensures syncRequestStream == old(syncRequestStream) + [CancelInFlight]
      ensures asyncRequestStream == old(asyncRequestStream)
    {
      OnLane(Sync, CancelInFlight);
    }

    /** `cancelAll()`: the async lane, then the sync lane. */
    method CancelAll()
      requires Valid()
      modifies this
      ensures Valid()
      ensures calls == old(calls) + [OnStream(Async, CancelInFlight), OnStream(Sync, CancelInFlight)]
      ensures syncRequestStream == old(syncRequestStream) + [CancelInFlight]
      ensures asyncRequestStream == old(asyncRequestStream) + [CancelInFlight]
    {
      OnLane(Async, CancelInFlight);
      OnLane(Sync, CancelInFlight);
    }

    /** `poll(interval, requestOptions = {}, options = {})`: each tick of the poller is `reload(requestOptions)`. */
    method Poll(interval: int, requestOptions: VisitOptions, options: PollOptions)
      requires Valid()
      modifies this
      ensures Valid()
      ensures calls == old(calls) + [PollsAdd(interval, requestOptions, GetPollSettings(options))]
      ensures syncRequestStream == old(syncRequestStream) && asyncRequestStream == old(asyncRequestStream)
    {
      Note(PollsAdd(interval, requestOptions, GetPollSettings(options)));
    }

    /** `loadDeferredProps()`: one `reload({ only: group })` per deferred group of this router's frame. */
    method LoadDeferredProps(location: Option<string>, env: Env, page: PageState)
      requires Valid()
      modifies this
      ensures Valid()
      ensures calls == old(calls) + ReloadsProtocol(transform, DeferredReloads(DeferredGroups(page, frame)), location, env, page)
    {
      var groups := DeferredGroups(page, frame);
      for i := 0 to |groups|
        invariant Valid()
        invariant calls == old(calls) + ReloadsProtocol(transform, DeferredReloads(groups)[..i], location, env, page)
      {
        ReloadGroup(groups, i, old(calls), location, env, page);
      }
      assert DeferredReloads(groups)[..|groups|] == DeferredReloads(groups);
    }

    /** The `i`-th reload of `loadDeferredProps`, `reload({ only: group })`, after the ones before it. */
    method ReloadGroup(groups: seq<DeferredGroup>, i: nat, ghost base: seq<Call>,
                       location: Option<string>, env: Env, page: PageState)
      requires Valid() && i < |groups|
      requires calls == base + ReloadsProtocol(transform, DeferredReloads(groups)[..i], location, env, page)
      modifies this
      ensures Valid()
      ensures calls == base + ReloadsProtocol(transform, DeferredReloads(groups)[..i + 1], location, env, page)
    {
      var reload := NoOptions.(only := Some(groups[i].props));
      Reload(reload, location, env, page);
      DeferredReloadsStep(transform, groups, i, location, env, page);
      AppendAssoc(base, ReloadsProtocol(transform, DeferredReloads(groups)[..i], location, env, page),
                  ReloadProtocol(transform, reload, location, env, page));
    }

    /** `prefetch(href, options, { cacheFor })`; a non-GET method fails with the message of the thrown error. */
    method Prefetch(href: string, options: VisitOptions, cacheFor: Option<int>, env: Env) returns (r: Outcome)
      requires Valid()
      modifies this
      ensures Valid()
      ensures r == PrefetchOutcome(options)
      ensures calls == old(calls) + PrefetchProtocol(transform, href, options, cacheFor, env)
    {
      if options.httpMethod != Some(HttpMethod.Get) {
        return Fail(PrefetchGetOnly);
      }
      r := Pass;
      var visit := GetPendingVisit(href, PrefetchOverrides(options), transform);
      var events := GetVisitEvents(options);
      Note(RunOnBefore(events.onBefore, visit));
      if HookVetoes(env, events.onBefore, visit) {
        return;
      }
      Note(FireBeforeEvent(visit));
      if !env.beforeEvent(visit) {
        return;
      }
      Note(HideProgress);
      OnLane(Async, InterruptInFlight);
      Note(StoreAdd(ActiveVisit(visit, events), cacheFor));
    }

    /** The executor `prefetch` hands to the store: it sends the request on the async lane. */
    method PrefetchExecutor(params: ActiveVisit, page: PageState)
      requires Valid()
      modifies this
      ensures Valid()
      ensures calls == old(calls) + [OnStream(Async, Send(Request(params, page.current)))]
      ensures asyncRequestStream == old(asyncRequestStream) + [Send(Request(params, page.current))]
      ensures syncRequestStream == old(syncRequestStream)
    {
      OnLane(Async, Send(Request(params, page.current)));
    }

    /** `getCached(href, options)`: the store's resolved entry for the prefetch request of these options. */
    method GetCached(href: string, options: VisitOptions, env: Env) returns (r: Option<Entry>)
      requires Valid()
      modifies this
      ensures Valid()
      ensures r == env.findCached(GetPrefetchParams(href, options, transform))
      ensures calls == old(calls) + [StoreFindCached(GetPrefetchParams(href, options, transform))]
    {
      var params := GetPrefetchParams(href, options, transform);
      Note(StoreFindCached(params));
      r := env.findCached(params);
    }

    /** `getPrefetching(href, options)`: the store's in-flight entry for the prefetch request of these options. */
    method GetPrefetching(href: string, options: VisitOptions, env: Env) returns (r: Option<Entry>)
      requires Valid()
      modifies this
      ensures Valid()
      ensures r == env.findInFlight(GetPrefetchParams(href, options, transform))
      ensures calls == old(calls) + [StoreFindInFlight(GetPrefetchParams(href, options, transform))]
    {
      var params := GetPrefetchParams(href, options, transform);
      Note(StoreFindInFlight(params));
      r := env.findInFlight(params);
    }

    /** `flush(href, options)`: removes the store's entry for the prefetch request of these options. */
    method Flush(href: string, options: VisitOptions)
      requires Valid()
      modifies this
      ensures Valid()
      ensures calls == old(calls) + [StoreRemove(GetPrefetchParams(href, options, transform))]
      ensures syncRequestStream == old(syncRequestStream) && asyncRequestStream == old(asyncRequestStream)
    {
      Note(StoreRemove(GetPrefetchParams(href, options, transform)));
    }

    /** `flushAll()`. */
    method FlushAll()
      requires Valid()
      modifies this
      ensures Valid()
      ensures calls == old(calls) + [StoreRemoveAll]
      ensures syncRequestStream == old(syncRequestStream) && asyncRequestStream == old(asyncRequestStream)
    {
      Note(StoreRemoveAll);
    }

    /** `remember(data, key = 'default')`: stored under this router's frame. */
    method Remember(data: string, key: Option<string>)
      requires Valid()
      modifies this
      ensures Valid()
      ensures calls == old(calls) + [HistoryRemember(frame, data, key.GetOr("default"))]
      ensures syncRequestStream == old(syncRequestStream) && asyncRequestStream == old(asyncRequestStream)
    {
      Note(HistoryRemember(frame, data, key.GetOr("default")));
    }

    /** `restore(key = 'default')`: read back under this router's frame. */
    method Restore(key: Option<string>)
      requires Valid()
      modifies this
      ensures Valid()
      ensures calls == old(calls) + [HistoryRestore(frame, key.GetOr("default"))]
      ensures syncRequestStream == old(syncRequestStream) && asyncRequestStream == old(asyncRequestStream)
    {
      Note(HistoryRestore(frame, key.GetOr("default")));
    }

    /** `clearHistory()`. */
    method ClearHistory()
      requires Valid()
      modifies this
      ensures Valid()
      ensures calls == old(calls) + [HistoryClear]
      ensures syncRequestStream == old(syncRequestStream) && asyncRequestStream == old(asyncRequestStream)
    {
      Note(HistoryClear);
    }

    /** `decryptHistory()`. */
    method DecryptHistory()
      requires Valid()
      modifies this
      ensures Valid()
      ensures calls == old(calls) + [HistoryDecrypt]
      ensures syncRequestStream == old(syncRequestStream) && asyncRequestStream == old(asyncRequestStream)
    {
      Note(HistoryDecrypt);
    }
  }
}
