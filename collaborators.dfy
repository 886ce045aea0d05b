/**
 * The router's collaborators, seen from the router: the current page, the two
 * request lanes, the prefetch store, the progress indicator, scroll saving,
 * the global before-event, the poller and history. Their code is not part of
 * this model; the router is described by the calls it makes into them, in
 * order, and by the answers they give back.
 */
module Collaborators {
  import opened Optional
  import opened VisitBuilder

  /** A snapshot of the current page (what `currentPage.get()` returns). */
  datatype Page = Page(component: string, url: string)

  /** One named group of deferred props and the props it contains. */
  datatype DeferredGroup = DeferredGroup(name: string, props: seq<string>)

  /** Per-frame page state; `deferredProps` lists the groups in key order. */
  datatype FrameState = FrameState(deferredProps: Option<seq<DeferredGroup>>)

  /** The page collaborator: `isCleared()`, `get()` and `frame(id)`. */
  datatype PageState = PageState(cleared: bool, current: Page, frames: map<string, FrameState>)

  /** What `Request.create(params, page)` builds. */
  datatype Request = Request(params: ActiveVisit, page: Page)

  /** The two request streams: the single-slot interruptible one and the unbounded async one. */
  datatype Lane = Sync | Async

  /** A call the router makes on a request stream. */
  datatype StreamCall = InterruptInFlight | CancelInFlight | Send(request: Request)

  /** What the prefetch store hands back for a request. */
  datatype Entry = Entry(inFlight: bool, response: nat)

  /** A call the router makes into a collaborator. */
  datatype Call =
    | RunOnBefore(callback: Callback, visit: PendingVisit)   // events.onBefore(visit)
    | FireBeforeEvent(visit: PendingVisit)                   // fireBeforeEvent(visit)
    | OnStream(lane: Lane, call: StreamCall)                 // xRequestStream.interruptInFlight() / cancelInFlight() / send(..)
    | SaveScroll(page: Page)                                 // Scroll.save(page)
    | RevealProgress(inFlight: bool)                         // revealProgress(..)
    | HideProgress                                           // hideProgress()
    | StoreGet(params: ActiveVisit)                          // prefetchedRequests.get(..)
    | StoreUse(entry: Entry, params: ActiveVisit)            // prefetchedRequests.use(..)
    | StoreAdd(params: ActiveVisit, cacheFor: Option<int>)   // prefetchedRequests.add(.., executor, { cacheFor })
    | StoreFindCached(params: ActiveVisit)                   // prefetchedRequests.findCached(..)
    | StoreFindInFlight(params: ActiveVisit)                 // prefetchedRequests.findInFlight(..)
    | StoreRemove(params: ActiveVisit)                       // prefetchedRequests.remove(..)
    | StoreRemoveAll                                         // prefetchedRequests.removeAll()
    | PollsAdd(interval: int, reload: VisitOptions, settings: PollSettings)  // polls.add(..): each tick reloads with `reload`
    | HistoryRemember(frame: string, data: string, key: string)
    | HistoryRestore(frame: string, key: string)
    | HistoryClear
    | HistoryDecrypt

  /**
   * The answers the collaborators give during one router call: the global
   * before-event's verdict, whether a caller's handler returns exactly
   * `false`, and the prefetch store's lookups.
   */
  datatype Env = Env(
    beforeEvent: PendingVisit -> bool,
    returnsFalse: (HandlerId, PendingVisit) -> bool,
    storeGet: ActiveVisit -> Option<Entry>,
    findCached: ActiveVisit -> Option<Entry>,
    findInFlight: ActiveVisit -> Option<Entry>)

  /** Regrouping a concatenation, stated on plain sequences so that it stays cheap on large traces. */
  lemma AppendAssoc<T>(a: seq<T>, b: seq<T>, c: seq<T>)
    ensures (a + b) + c == a + (b + c)
  {
  }

  /** A prefix one longer is the prefix and the next element. */
  lemma TakeSnoc<T>(s: seq<T>, i: nat)
    requires i < |s|
    ensures s[..i + 1] == s[..i] + [s[i]]
  {
  }

  /** The calls that lane `l` receives, in order, out of a trace. */
  function LaneCalls(trace: seq<Call>, l: Lane): seq<StreamCall> {
    if trace == [] then []
    else (if trace[0].OnStream? && trace[0].lane == l then [trace[0].call] else []) + LaneCalls(trace[1..], l)
  }

  /** The requests sent, in order, out of a lane's calls. */
  function Sends(calls: seq<StreamCall>): seq<Request> {
    if calls == [] then []
    else (if calls[0].Send? then [calls[0].request] else []) + Sends(calls[1..])
  }

  /** A trace makes no call on any lane. */
  predicate NoStreamCalls(trace: seq<Call>) {
    forall i :: 0 <= i < |trace| ==> !trace[i].OnStream?
  }

  lemma {:induction false} LaneCallsAppend(a: seq<Call>, b: seq<Call>, l: Lane)
    ensures LaneCalls(a + b, l) == LaneCalls(a, l) + LaneCalls(b, l)
  {
    if a == [] {
      assert a + b == b;
    } else {
      var h := if a[0].OnStream? && a[0].lane == l then [a[0].call] else [];
      assert (a + b)[0] == a[0];
      assert (a + b)[1..] == a[1..] + b;
      assert LaneCalls(a + b, l) == h + LaneCalls(a[1..] + b, l);
      LaneCallsAppend(a[1..], b, l);
      AppendAssoc(h, LaneCalls(a[1..], l), LaneCalls(b, l));
    }
  }

  /** The one call of a one-call trace reaches a lane exactly when it is a call on that lane. */
  lemma LaneCallsOne(c: Call, l: Lane)
    ensures LaneCalls([c], l) == if c.OnStream? && c.lane == l then [c.call] else []
  {
    assert [c][1..] == [];
  }

  lemma SendsOne(c: StreamCall)
    ensures Sends([c]) == if c.Send? then [c.request] else []
  {
    assert [c][1..] == [];
  }

  lemma {:induction false} SendsAppend(a: seq<StreamCall>, b: seq<StreamCall>)
    ensures Sends(a + b) == Sends(a) + Sends(b)
  {
    if a == [] {
      assert a + b == b;
    } else {
      var h := if a[0].Send? then [a[0].request] else [];
      assert (a + b)[0] == a[0];
      assert (a + b)[1..] == a[1..] + b;
      assert Sends(a + b) == h + Sends(a[1..] + b);
      SendsAppend(a[1..], b);
      AppendAssoc(h, Sends(a[1..]), Sends(b));
    }
  }

  /** Calls that are not on a stream, between a first and a last call, do not reach any lane. */
  lemma LanesAroundLocalCalls(first: Call, middle: seq<Call>, c1: Call, c2: Call, last: Call, l: Lane)
    requires NoStreamCalls(middle) && !c1.OnStream? && !c2.OnStream?
    ensures LaneCalls([first] + middle + [c1] + [c2, last], l) == LaneCalls([first], l) + LaneCalls([last], l)
  {
    var head := [first] + middle;
    NoStreamCallsLanes(middle);
    AppendAssoc(head + [c1], [c2], [last]);
    assert [c2, last] == [c2] + [last];
    LaneCallsAppend(head + [c1] + [c2], [last], l);
    LaneCallsAppend(head + [c1], [c2], l);
    LaneCallsAppend(head, [c1], l);
    LaneCallsAppend([first], middle, l);
    LaneCallsOne(c1, l);
    LaneCallsOne(c2, l);
  }

  /** A trace with no stream call leaves both lanes untouched, and conversely. */
  lemma {:induction false} NoStreamCallsLanes(trace: seq<Call>)
    ensures NoStreamCalls(trace) <==> (LaneCalls(trace, Sync) == [] && LaneCalls(trace, Async) == [])
  {
    if trace != [] {
      NoStreamCallsLanes(trace[1..]);
      assert NoStreamCalls(trace) <==> !trace[0].OnStream? && NoStreamCalls(trace[1..]) by {
        if NoStreamCalls(trace) {
          forall i | 0 <= i < |trace[1..]| ensures !trace[1..][i].OnStream? {
            assert trace[1..][i] == trace[i + 1];
          }
        }
        if !trace[0].OnStream? && NoStreamCalls(trace[1..]) {
          forall i | 0 <= i < |trace| ensures !trace[i].OnStream? {
            if i > 0 { assert trace[i] == trace[1..][i - 1]; }
          }
        }
      }
    }
  }

  /** The calls of `step(x)` for each `x` of `xs`, one after the other. */
  function Consecutive<T>(step: T -> seq<Call>, xs: seq<T>): seq<Call> {
    if xs == [] then [] else Consecutive(step, xs[..|xs| - 1]) + step(xs[|xs| - 1])
  }

  /** One more step adds its calls at the end. */
  lemma ConsecutiveSnoc<T>(step: T -> seq<Call>, xs: seq<T>, x: T)
    ensures Consecutive(step, xs + [x]) == Consecutive(step, xs) + step(x)
  {
    assert (xs + [x])[..|xs|] == xs;
  }

  /** Steps that each leave lane `l` alone leave it alone together. */
  lemma {:induction false} ConsecutiveOffLane<T>(step: T -> seq<Call>, xs: seq<T>, l: Lane)
    requires forall i :: 0 <= i < |xs| ==> LaneCalls(step(xs[i]), l) == []
    ensures LaneCalls(Consecutive(step, xs), l) == []
  {
    if xs != [] {
      var init := xs[..|xs| - 1];
      assert forall i :: 0 <= i < |init| ==> init[i] == xs[i];
      ConsecutiveOffLane(step, init, l);
      LaneCallsAppend(Consecutive(step, init), step(xs[|xs| - 1]), l);
    }
  }

  /** The requests a sequence of steps sends on lane `l`: those of all but the last step, then the last step's. */
  lemma ConsecutiveSends<T>(step: T -> seq<Call>, xs: seq<T>, l: Lane)
    requires xs != []
    ensures Sends(LaneCalls(Consecutive(step, xs), l))
         == Sends(LaneCalls(Consecutive(step, xs[..|xs| - 1]), l)) + Sends(LaneCalls(step(xs[|xs| - 1]), l))
  {
    var before, last := Consecutive(step, xs[..|xs| - 1]), step(xs[|xs| - 1]);
    LaneCallsAppend(before, last, l);
    SendsAppend(LaneCalls(before, l), LaneCalls(last, l));
  }

  /** Steps that each send one request on lane `l` send, together, those requests in order. */
  lemma {:induction false} ConsecutiveSendsOneEach<T>(step: T -> seq<Call>, xs: seq<T>, l: Lane)
    requires forall i :: 0 <= i < |xs| ==> |Sends(LaneCalls(step(xs[i]), l))| == 1
    ensures var sent := Sends(LaneCalls(Consecutive(step, xs), l));
      && |sent| == |xs|
      && forall i :: 0 <= i < |xs| ==> sent[i] == Sends(LaneCalls(step(xs[i]), l))[0]
  {
    if xs != [] {
      var n := |xs| - 1;
      var init := xs[..n];
      assert forall i :: 0 <= i < n ==> init[i] == xs[i];
      ConsecutiveSendsOneEach(step, init, l);
      var before, last := Consecutive(step, init), step(xs[n]);
      ConsecutiveSends(step, xs, l);
      var sentBefore, sentLast := Sends(LaneCalls(before, l)), Sends(LaneCalls(last, l));
      var sent := sentBefore + sentLast;
      forall i | 0 <= i < |xs| ensures sent[i] == Sends(LaneCalls(step(xs[i]), l))[0] {
        if i < n {
          assert sent[i] == sentBefore[i];
        } else {
          assert sent[i] == sentLast[0];
        }
      }
    }
  }
}
