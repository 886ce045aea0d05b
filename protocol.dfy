/**
 * The router's navigation protocol as the sequence of calls each public
 * operation makes into its collaborators, and the properties of those
 * sequences: the veto point, the lane choice, the single interrupt that
 * precedes dispatch, cache hit against miss, what `prefetch` and `reload`
 * force, and the reloads issued for deferred props.
 */
module Protocol {
  import opened Optional
  import opened VisitBuilder
  import opened Collaborators

  // ----- The veto stage: the caller's `onBefore`, then the global before-event -----

  /** The resolved `onBefore` returns exactly `false`; the router's no-op never does. */
  predicate HookVetoes(env: Env, cb: Callback, visit: PendingVisit) {
    cb.Handler? && env.returnsFalse(cb.id, visit)
  }

  /** Neither the caller's `onBefore` nor the global before-event stops the visit. */
  predicate Proceeds(env: Env, visit: PendingVisit, events: VisitCallbacks) {
    !HookVetoes(env, events.onBefore, visit) && env.beforeEvent(visit)
  }

  /** The hooks run: `onBefore` always, the before-event only when `onBefore` did not veto. */
  function VetoStage(env: Env, visit: PendingVisit, events: VisitCallbacks): seq<Call> {
    [RunOnBefore(events.onBefore, visit)]
    + (if HookVetoes(env, events.onBefore, visit) then [] else [FireBeforeEvent(visit)])
  }

  // ----- `visit` -----

  /** An async visit goes to the async lane, every other visit to the sync lane. */
  function LaneFor(visit: PendingVisit): Lane {
    if visit.async then Async else Sync
  }

  /** Scroll regions are saved unless the page is cleared or the visit preserves the URL. */
  function ScrollStage(visit: PendingVisit, page: PageState): seq<Call> {
    if !page.cleared && !visit.preserveUrl then [SaveScroll(page.current)] else []
  }

  /** A hit replays the store's entry; a miss reveals progress and sends on the lane. */
  function LookupOutcome(env: Env, lane: Lane, params: ActiveVisit, page: PageState): seq<Call> {
    match env.storeGet(params)
    case Some(e) => [RevealProgress(e.inFlight), StoreUse(e, params)]
    case None => [RevealProgress(true), OnStream(lane, Send(Request(params, page.current)))]
  }

  /** Everything after the veto point. */
  function DispatchStage(env: Env, visit: PendingVisit, events: VisitCallbacks, page: PageState): seq<Call> {
    var lane := LaneFor(visit);
    var params := ActiveVisit(visit, events);
    [OnStream(lane, InterruptInFlight)] + ScrollStage(visit, page) + [StoreGet(params)]
    + LookupOutcome(env, lane, params, page)
  }

  /** The calls `visit(href, options)` makes. */
  function VisitProtocol(transform: Transformer, href: string, o: VisitOptions, env: Env, page: PageState): seq<Call> {
    var visit := GetPendingVisit(href, VisitDefaults(o), transform);
    var events := GetVisitEvents(o);
    VetoStage(env, visit, events) + (if Proceeds(env, visit, events) then DispatchStage(env, visit, events, page) else [])
  }

  /** The descriptor and the request parameters `visit(href, options)` works with. */
  function VisitDescriptor(transform: Transformer, href: string, o: VisitOptions): PendingVisit {
    GetPendingVisit(href, VisitDefaults(o), transform)
  }

  function VisitParams(transform: Transformer, href: string, o: VisitOptions): ActiveVisit {
    ActiveVisit(VisitDescriptor(transform, href, o), GetVisitEvents(o))
  }

  /** A caller without an `onBefore` can only be stopped by the global before-event. */
  lemma NoHookNoVeto(env: Env, visit: PendingVisit, o: VisitOptions)
    requires OnBefore !in o.hooks
    ensures Proceeds(env, visit, GetVisitEvents(o)) <==> env.beforeEvent(visit)
  {
    assert GetVisitEvents(o).At(OnBefore) == NoOp;
  }

  /**
   * A vetoed visit runs the hooks and nothing else: no lane is interrupted or
   * sent to, no scroll is saved, the store is not consulted and progress is
   * not touched.
   */
  lemma VisitVetoed(transform: Transformer, href: string, o: VisitOptions, env: Env, page: PageState)
    requires !Proceeds(env, VisitDescriptor(transform, href, o), GetVisitEvents(o))
    ensures var calls := VisitProtocol(transform, href, o, env, page);
      && 1 <= |calls| <= 2
      && (forall i :: 0 <= i < |calls| ==> calls[i].RunOnBefore? || calls[i].FireBeforeEvent?)
      && LaneCalls(calls, Sync) == [] && LaneCalls(calls, Async) == []
  {
    var calls := VisitProtocol(transform, href, o, env, page);
    assert calls == VetoStage(env, VisitDescriptor(transform, href, o), GetVisitEvents(o));
    NoStreamCallsLanes(calls);
  }

  /**
   * When the visit goes ahead, the hooks come first, then the interrupt of the
   * chosen lane, and the last call is either the replay of a store entry or
   * the send on that lane.
   */
  lemma VisitOrder(transform: Transformer, href: string, o: VisitOptions, env: Env, page: PageState)
    requires Proceeds(env, VisitDescriptor(transform, href, o), GetVisitEvents(o))
    ensures var v := VisitDescriptor(transform, href, o);
      var params := VisitParams(transform, href, o);
      var calls := VisitProtocol(transform, href, o, env, page);
      && |calls| >= 6
      && calls[0] == RunOnBefore(GetVisitEvents(o).onBefore, v)
      && calls[1] == FireBeforeEvent(v)
      && calls[2] == OnStream(LaneFor(v), InterruptInFlight)
      && calls[|calls| - 3] == StoreGet(params)
      && calls[|calls| - 1] == (match env.storeGet(params)
                                case Some(e) => StoreUse(e, params)
                                case None => OnStream(LaneFor(v), Send(Request(params, page.current))))
  {
  }

  /** Scroll regions are saved exactly when the page is not cleared and the URL is not preserved. */
  lemma VisitSavesScroll(transform: Transformer, href: string, o: VisitOptions, env: Env, page: PageState)
    requires Proceeds(env, VisitDescriptor(transform, href, o), GetVisitEvents(o))
    ensures SaveScroll(page.current) in VisitProtocol(transform, href, o, env, page)
        <==> !page.cleared && !o.preserveUrl.GetOr(false)
  {
    var v := VisitDescriptor(transform, href, o);
    var events := GetVisitEvents(o);
    var calls := VisitProtocol(transform, href, o, env, page);
    var params := ActiveVisit(v, events);
    var lane := LaneFor(v);
    assert calls == VetoStage(env, v, events) + [OnStream(lane, InterruptInFlight)] + ScrollStage(v, page)
                    + [StoreGet(params)] + LookupOutcome(env, lane, params, page);
  }

  /**
   * When the visit goes ahead it touches exactly one lane, the async one for
   * async visits and the sync one otherwise: that lane is interrupted once,
   * before anything is sent, and receives the request exactly when the store
   * has no entry; the other lane is not touched.
   */
  lemma VisitLanes(transform: Transformer, href: string, o: VisitOptions, env: Env, page: PageState)
    requires Proceeds(env, VisitDescriptor(transform, href, o), GetVisitEvents(o))
    ensures var v := VisitDescriptor(transform, href, o);
      var params := VisitParams(transform, href, o);
      var calls := VisitProtocol(transform, href, o, env, page);
      var lane := if o.async.GetOr(false) then Async else Sync;
      var other := if o.async.GetOr(false) then Sync else Async;
      && LaneFor(v) == lane
      && LaneCalls(calls, lane) == [InterruptInFlight]
           + (if env.storeGet(params).None? then [Send(Request(params, page.current))] else [])
      && LaneCalls(calls, other) == []
  {
    var v := VisitDescriptor(transform, href, o);
    var events := GetVisitEvents(o);
    var veto := VetoStage(env, v, events);
    var dispatch := DispatchStage(env, v, events, page);
    NoStreamCallsLanes(veto);
    DispatchLanes(env, v, events, page);
    LaneCallsAppend(veto, dispatch, Sync);
    LaneCallsAppend(veto, dispatch, Async);
  }

  /** The lanes' share of the stage after the veto point. */
  lemma DispatchLanes(env: Env, visit: PendingVisit, events: VisitCallbacks, page: PageState)
    ensures var lane := LaneFor(visit);
      var params := ActiveVisit(visit, events);
      var calls := DispatchStage(env, visit, events, page);
      && LaneCalls(calls, lane) == [InterruptInFlight]
           + (if env.storeGet(params).None? then [Send(Request(params, page.current))] else [])
      && LaneCalls(calls, if lane == Sync then Async else Sync) == []
  {
    var lane := LaneFor(visit);
    var interrupt := OnStream(lane, InterruptInFlight);
    var outcome := LookupOutcome(env, lane, ActiveVisit(visit, events), page);
    DispatchLane(env, visit, events, page, Sync);
    DispatchLane(env, visit, events, page, Async);
    LaneCallsOne(interrupt, Sync);
    LaneCallsOne(interrupt, Async);
    LaneCallsOne(outcome[1], Sync);
    LaneCallsOne(outcome[1], Async);
  }

  /** One lane's share of the stage after the veto point: the interrupt and the outcome's last call. */
  lemma DispatchLane(env: Env, visit: PendingVisit, events: VisitCallbacks, page: PageState, l: Lane)
    ensures var outcome := LookupOutcome(env, LaneFor(visit), ActiveVisit(visit, events), page);
      && |outcome| == 2
      && LaneCalls(DispatchStage(env, visit, events, page), l)
         == LaneCalls([OnStream(LaneFor(visit), InterruptInFlight)], l) + LaneCalls([outcome[1]], l)
  {
    var lane := LaneFor(visit);
    var params := ActiveVisit(visit, events);
    var outcome := LookupOutcome(env, lane, params, page);
    var scroll := ScrollStage(visit, page);
    assert NoStreamCalls(scroll);
    LanesAroundLocalCalls(OnStream(lane, InterruptInFlight), scroll, StoreGet(params), outcome[0], outcome[1], l);
  }

  /**
   * A store hit: progress is revealed with the entry's `inFlight`, the entry
   * is replayed, and nothing is sent on either lane.
   */
  lemma VisitCacheHit(transform: Transformer, href: string, o: VisitOptions, env: Env, page: PageState, e: Entry)
    requires Proceeds(env, VisitDescriptor(transform, href, o), GetVisitEvents(o))
    requires env.storeGet(VisitParams(transform, href, o)) == Some(e)
    ensures var calls := VisitProtocol(transform, href, o, env, page);
      && RevealProgress(e.inFlight) in calls
      && StoreUse(e, VisitParams(transform, href, o)) in calls
      && Sends(LaneCalls(calls, Sync)) == [] && Sends(LaneCalls(calls, Async)) == []
  {
    VisitLanes(transform, href, o, env, page);
    var calls := VisitProtocol(transform, href, o, env, page);
    assert |calls| >= 2 && calls[|calls| - 2] == RevealProgress(e.inFlight);
  }

  /**
   * A store miss: progress is revealed with `true` just before the request,
   * built from the visit's parameters and the current page, is sent; it is
   * the only request sent on the chosen lane.
   */
  lemma VisitCacheMiss(transform: Transformer, href: string, o: VisitOptions, env: Env, page: PageState)
    requires Proceeds(env, VisitDescriptor(transform, href, o), GetVisitEvents(o))
    requires env.storeGet(VisitParams(transform, href, o)).None?
    ensures var v := VisitDescriptor(transform, href, o);
      var req := Request(VisitParams(transform, href, o), page.current);
      var calls := VisitProtocol(transform, href, o, env, page);
      && |calls| >= 2
      && calls[|calls| - 2] == RevealProgress(true)
      && calls[|calls| - 1] == OnStream(LaneFor(v), Send(req))
      && Sends(LaneCalls(calls, LaneFor(v))) == [req]
  {
    VisitLanes(transform, href, o, env, page);
    var req := Request(VisitParams(transform, href, o), page.current);
    SendsAppend([InterruptInFlight], [Send(req)]);
    SendsOne(InterruptInFlight);
    SendsOne(Send(req));
  }

  // ----- `reload` and deferred props -----

  /** The calls `reload(options)` makes; `location` is `window.location.href`, `None` without a window. */
  function ReloadProtocol(transform: Transformer, o: VisitOptions, location: Option<string>, env: Env, page: PageState): seq<Call> {
    match location
    case None => []
    case Some(href) => VisitProtocol(transform, href, ReloadOverrides(o), env, page)
  }

  /** Without a window `reload` does nothing. */
  lemma ReloadWithoutWindow(transform: Transformer, o: VisitOptions, env: Env, page: PageState)
    ensures ReloadProtocol(transform, o, None, env, page) == []
  {
  }

  /** `reload` never touches the sync lane: it is always an async visit. */
  lemma ReloadStaysAsync(transform: Transformer, o: VisitOptions, location: Option<string>, env: Env, page: PageState)
    ensures LaneCalls(ReloadProtocol(transform, o, location, env, page), Sync) == []
  {
    if location.Some? {
      var ro := ReloadOverrides(o);
      if Proceeds(env, VisitDescriptor(transform, location.value, ro), GetVisitEvents(ro)) {
        VisitLanes(transform, location.value, ro, env, page);
      } else {
        VisitVetoed(transform, location.value, ro, env, page);
      }
    }
  }

  /**
   * A reload that no hook vetoes and the store does not answer sends exactly
   * one request on the async lane, carrying the caller's `only`.
   */
  lemma ReloadSendsOnce(transform: Transformer, o: VisitOptions, href: string, env: Env, page: PageState)
    requires Proceeds(env, VisitDescriptor(transform, href, ReloadOverrides(o)), GetVisitEvents(ReloadOverrides(o)))
    requires env.storeGet(VisitParams(transform, href, ReloadOverrides(o))).None?
    ensures var sent := Sends(LaneCalls(ReloadProtocol(transform, o, Some(href), env, page), Async));
      && |sent| == 1
      && sent[0].params == VisitParams(transform, href, ReloadOverrides(o))
      && sent[0].params.visit.only == o.only.GetOr([])
  {
    VisitCacheMiss(transform, href, ReloadOverrides(o), env, page);
  }

  /** The groups of deferred props the page declares for `frame`, in key order; none when it declares none. */
  function DeferredGroups(page: PageState, frame: string): seq<DeferredGroup> {
    if frame in page.frames && page.frames[frame].deferredProps.Some?
    then page.frames[frame].deferredProps.value
    else []
  }

  /** The reload options `loadDeferredProps` issues: one `{ only: group }` per group, in order. */
  function DeferredReloads(groups: seq<DeferredGroup>): (r: seq<VisitOptions>)
    ensures |r| == |groups|
    ensures forall i :: 0 <= i < |groups| ==> r[i] == NoOptions.(only := Some(groups[i].props))
  {
    if groups == [] then []
    else [NoOptions.(only := Some(groups[0].props))] + DeferredReloads(groups[1..])
  }

  /** One `reload(options)` as a step of a sequence of reloads. */
  function ReloadStep(transform: Transformer, location: Option<string>, env: Env, page: PageState): VisitOptions -> seq<Call> {
    r => ReloadProtocol(transform, r, location, env, page)
  }

  /** The calls a sequence of reloads makes, one after the other. */
  function ReloadsProtocol(transform: Transformer, rs: seq<VisitOptions>, location: Option<string>, env: Env, page: PageState): seq<Call> {
    Consecutive(ReloadStep(transform, location, env, page), rs)
  }

  /** The reloads for the first `i + 1` groups make the calls of the first `i`, then those of `{ only: group i }`. */
  lemma DeferredReloadsStep(transform: Transformer, groups: seq<DeferredGroup>, i: nat, location: Option<string>, env: Env, page: PageState)
    requires i < |groups|
    ensures ReloadsProtocol(transform, DeferredReloads(groups)[..i + 1], location, env, page)
         == ReloadsProtocol(transform, DeferredReloads(groups)[..i], location, env, page)
            + ReloadProtocol(transform, NoOptions.(only := Some(groups[i].props)), location, env, page)
  {
    var rs := DeferredReloads(groups);
    var step := ReloadStep(transform, location, env, page);
    TakeSnoc(rs, i);
    ConsecutiveSnoc(step, rs[..i], rs[i]);
  }

  /** A frame that declares no deferred props, or is unknown to the page, gets no reload at all. */
  lemma NoDeferredNoReloads(transform: Transformer, page: PageState, frame: string, location: Option<string>, env: Env)
    requires frame !in page.frames || page.frames[frame].deferredProps.None?
    ensures DeferredReloads(DeferredGroups(page, frame)) == []
    ensures ReloadsProtocol(transform, DeferredReloads(DeferredGroups(page, frame)), location, env, page) == []
  {
  }

  /** Loading deferred props never touches the sync lane. */
  lemma DeferredStaysAsync(transform: Transformer, rs: seq<VisitOptions>, location: Option<string>, env: Env, page: PageState)
    ensures LaneCalls(ReloadsProtocol(transform, rs, location, env, page), Sync) == []
  {
    var step := ReloadStep(transform, location, env, page);
    forall i | 0 <= i < |rs| ensures LaneCalls(step(rs[i]), Sync) == [] {
      ReloadStaysAsync(transform, rs[i], location, env, page);
    }
    ConsecutiveOffLane(step, rs, Sync);
  }

  /**
   * Reloads without an `onBefore`, issued with a window while the global
   * before-event lets everything through and the store answers nothing, send
   * one async request each, in order, carrying each reload's `only`.
   */
  lemma ReloadsSendOneEach(transform: Transformer, rs: seq<VisitOptions>, href: string, env: Env, page: PageState)
    requires forall i :: 0 <= i < |rs| ==> OnBefore !in rs[i].hooks
    requires forall v :: env.beforeEvent(v)
    requires forall p :: env.storeGet(p).None?
    ensures var sent := Sends(LaneCalls(ReloadsProtocol(transform, rs, Some(href), env, page), Async));
      && |sent| == |rs|
      && forall i :: 0 <= i < |rs| ==> sent[i].params.visit.only == rs[i].only.GetOr([])
  {
    var step := ReloadStep(transform, Some(href), env, page);
    forall i | 0 <= i < |rs|
      ensures |Sends(LaneCalls(step(rs[i]), Async))| == 1
      ensures Sends(LaneCalls(step(rs[i]), Async))[0].params.visit.only == rs[i].only.GetOr([])
    {
      var ro := ReloadOverrides(rs[i]);
      NoHookNoVeto(env, VisitDescriptor(transform, href, ro), ro);
      ReloadSendsOnce(transform, rs[i], href, env, page);
    }
    ConsecutiveSendsOneEach(step, rs, Async);
  }

  /**
   * With a window, no veto from the global before-event and no store hits,
   * loading deferred props sends exactly one async request per group, in
   * order, the i-th with `only` equal to the i-th group's props.
   */
  lemma DeferredSendsOnePerGroup(transform: Transformer, groups: seq<DeferredGroup>, href: string, env: Env, page: PageState)
    requires forall v :: env.beforeEvent(v)
    requires forall p :: env.storeGet(p).None?
    ensures var sent := Sends(LaneCalls(ReloadsProtocol(transform, DeferredReloads(groups), Some(href), env, page), Async));
      && |sent| == |groups|
      && forall i :: 0 <= i < |groups| ==> sent[i].params.visit.only == groups[i].props
  {
    ReloadsSendOneEach(transform, DeferredReloads(groups), href, env, page);
  }

  // ----- `prefetch` -----

  const PrefetchGetOnly: string := "Prefetch requests must use the GET method"

  /** `prefetch` fails when `options.method` is anything but exactly `'get'`, an omitted method included. */
  function PrefetchOutcome(o: VisitOptions): (r: Outcome)
    ensures r.Pass? <==> o.httpMethod == Some(Get)
    ensures r.Fail? ==> r.message == PrefetchGetOnly
  {
    if o.httpMethod != Some(Get) then Fail(PrefetchGetOnly) else Pass
  }

  /** The calls `prefetch(href, options, { cacheFor })` makes. */
  function PrefetchProtocol(transform: Transformer, href: string, o: VisitOptions, cacheFor: Option<int>, env: Env): seq<Call> {
    if PrefetchOutcome(o).Fail? then []
    else
      var params := GetPrefetchParams(href, o, transform);
      VetoStage(env, params.visit, params.events)
      + (if Proceeds(env, params.visit, params.events)
         then [HideProgress, OnStream(Async, InterruptInFlight), StoreAdd(params, cacheFor)]
         else [])
  }

  /** A `prefetch` that is not a GET fails before any hook runs or the store is touched. */
  lemma PrefetchRejectsNonGet(transform: Transformer, href: string, o: VisitOptions, cacheFor: Option<int>, env: Env)
    requires o.httpMethod != Some(Get)
    ensures PrefetchOutcome(o) == Fail(PrefetchGetOnly)
    ensures PrefetchProtocol(transform, href, o, cacheFor, env) == []
  {
  }

  /**
   * A GET prefetch that goes ahead hides progress, interrupts the async lane
   * only, sends nothing itself and registers its request with the store; the
   * request is exactly the lookup key `getPrefetchParams` builds.
   */
  lemma PrefetchRegisters(transform: Transformer, href: string, o: VisitOptions, cacheFor: Option<int>, env: Env)
    requires o.httpMethod == Some(Get)
    requires Proceeds(env, GetPrefetchParams(href, o, transform).visit, GetVisitEvents(o))
    ensures var calls := PrefetchProtocol(transform, href, o, cacheFor, env);
      && |calls| == 5
      && calls[0] == RunOnBefore(GetVisitEvents(o).onBefore, GetPrefetchParams(href, o, transform).visit)
      && calls[1] == FireBeforeEvent(GetPrefetchParams(href, o, transform).visit)
      && calls[2] == HideProgress
      && calls[3] == OnStream(Async, InterruptInFlight)
      && calls[4] == StoreAdd(GetPrefetchParams(href, o, transform), cacheFor)
      && LaneCalls(calls, Sync) == []
      && LaneCalls(calls, Async) == [InterruptInFlight]
  {
    var params := GetPrefetchParams(href, o, transform);
    var calls := PrefetchProtocol(transform, href, o, cacheFor, env);
    var veto := VetoStage(env, params.visit, params.events);
    var tail := [HideProgress, OnStream(Async, InterruptInFlight), StoreAdd(params, cacheFor)];
    assert calls == veto + tail;
    assert tail == [tail[0]] + [tail[1]] + [tail[2]];
    NoStreamCallsLanes(veto);
    forall l: Lane ensures LaneCalls(calls, l) == LaneCalls([tail[1]], l) {
      LaneCallsAppend(veto, tail, l);
      LaneCallsAppend([tail[0]] + [tail[1]], [tail[2]], l);
      LaneCallsAppend([tail[0]], [tail[1]], l);
      LaneCallsOne(tail[0], l);
      LaneCallsOne(tail[2], l);
    }
    LaneCallsOne(tail[1], Sync);
    LaneCallsOne(tail[1], Async);
  }

  /** A vetoed prefetch runs the hooks only: no progress change, no interrupt, no registration. */
  lemma PrefetchVetoed(transform: Transformer, href: string, o: VisitOptions, cacheFor: Option<int>, env: Env)
    requires o.httpMethod == Some(Get)
    requires !Proceeds(env, GetPrefetchParams(href, o, transform).visit, GetVisitEvents(o))
    ensures var calls := PrefetchProtocol(transform, href, o, cacheFor, env);
      && 1 <= |calls| <= 2
      && forall i :: 0 <= i < |calls| ==> calls[i].RunOnBefore? || calls[i].FireBeforeEvent?
  {
  }
}
