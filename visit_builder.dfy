/**
 * The pure part of the router: turning a caller's navigation options into a
 * fully defaulted visit descriptor (`getPendingVisit`), resolving the ten
 * lifecycle callbacks (`getVisitEvents`), and the option merges that the
 * method helpers, `reload`, `visit`, `prefetch` and `poll` perform before they
 * hand the options on.
 */
module VisitBuilder {
  import opened Optional

  datatype HttpMethod = Get | Post | Put | Patch | Delete

  /** How arrays are written into a query string. */
  datatype ArrayFormat = Brackets | Indices

  /** A request payload and a header bag, as key/value maps. */
  type Payload = map<string, string>
  type Headers = map<string, string>

  /** Identifies a callback the caller supplied; its code is not part of this model. */
  type HandlerId = nat

  /** The ten lifecycle hooks of a visit. */
  datatype Hook =
    | OnCancelToken | OnBefore | OnStart | OnProgress | OnFinish
    | OnCancel | OnSuccess | OnError | OnPrefetched | OnPrefetching

  /** A resolved callback: the caller's handler or the router's `() => {}`. */
  datatype Callback = NoOp | Handler(id: HandlerId)

  /**
   * What a caller may pass to `visit` and friends. `None` means the key was
   * left out. `isFresh` is the option `fresh` and `httpMethod` the option
   * `method` (both words are reserved in Dafny). `hooks` holds the callbacks
   * the caller supplied, keyed by hook.
   */
  datatype VisitOptions = VisitOptions(
    httpMethod: Option<HttpMethod>,
    data: Option<Payload>,
    replace: Option<bool>,
    preserveScroll: Option<bool>,
    preserveState: Option<bool>,
    only: Option<seq<string>>,
    except: Option<seq<string>>,
    headers: Option<Headers>,
    errorBag: Option<string>,
    forceFormData: Option<bool>,
    queryStringArrayFormat: Option<ArrayFormat>,
    async: Option<bool>,
    showProgress: Option<bool>,
    isFresh: Option<bool>,
    reset: Option<seq<string>>,
    preserveUrl: Option<bool>,
    prefetch: Option<bool>,
    frame: Option<string>,
    hooks: map<Hook, HandlerId>)

  /** The empty options object `{}`. */
  const NoOptions: VisitOptions :=
    VisitOptions(None, None, None, None, None, None, None, None, None, None,
                 None, None, None, None, None, None, None, None, map[])

  /** A complete visit descriptor with its three status flags. */
  datatype PendingVisit = PendingVisit(
    url: string,
    httpMethod: HttpMethod,
    data: Payload,
    replace: bool,
    preserveScroll: bool,
    preserveState: bool,
    only: seq<string>,
    except: seq<string>,
    headers: Headers,
    errorBag: string,
    forceFormData: bool,
    queryStringArrayFormat: ArrayFormat,
    async: bool,
    showProgress: bool,
    isFresh: bool,
    reset: seq<string>,
    preserveUrl: bool,
    prefetch: bool,
    frame: string,
    cancelled: bool,
    completed: bool,
    interrupted: bool)

  /** The ten callbacks of a visit, every one present. */
  datatype VisitCallbacks = VisitCallbacks(
    onCancelToken: Callback,
    onBefore: Callback,
    onStart: Callback,
    onProgress: Callback,
    onFinish: Callback,
    onCancel: Callback,
    onSuccess: Callback,
    onError: Callback,
    onPrefetched: Callback,
    onPrefetching: Callback)
  {
    /** The callback bound to hook `h`. */
    function At(h: Hook): Callback {
      match h
      case OnCancelToken => onCancelToken
      case OnBefore => onBefore
      case OnStart => onStart
      case OnProgress => onProgress
      case OnFinish => onFinish
      case OnCancel => onCancel
      case OnSuccess => onSuccess
      case OnError => onError
      case OnPrefetched => onPrefetched
      case OnPrefetching => onPrefetching
    }
  }

  /** A descriptor merged with its callbacks (`{ ...visit, ...events }`). */
  datatype ActiveVisit = ActiveVisit(visit: PendingVisit, events: VisitCallbacks)

  /**
   * The URL transformer: from the target, the payload, the method, the
   * forced-multipart flag and the array format to the final URL and payload.
   * Its code is not part of this model.
   */
  type Transformer = (string, Payload, HttpMethod, bool, ArrayFormat) -> (string, Payload)

  /** `getPendingVisit(href, options)`: defaults overridden by the caller, url and data from the transformer. */
  function GetPendingVisit(href: string, o: VisitOptions, transform: Transformer): (v: PendingVisit)
    // the status flags start false
    ensures !v.cancelled && !v.completed && !v.interrupted
    // url and data are the transformer's outputs for the merged data, method, multipart flag and format
    ensures (v.url, v.data) == transform(href, o.data.GetOr(map[]), v.httpMethod, v.forceFormData, v.queryStringArrayFormat)
    // every other field is the caller's value when given, else its default
    ensures v.httpMethod == o.httpMethod.GetOr(Get)
    ensures v.replace == o.replace.GetOr(false)
    ensures v.preserveScroll == o.preserveScroll.GetOr(false)
    ensures v.preserveState == o.preserveState.GetOr(false)
    ensures v.only == o.only.GetOr([]) && v.except == o.except.GetOr([])
    ensures v.headers == o.headers.GetOr(map[])
    ensures v.errorBag == o.errorBag.GetOr("")
    ensures v.forceFormData == o.forceFormData.GetOr(false)
    ensures v.queryStringArrayFormat == o.queryStringArrayFormat.GetOr(Brackets)
    ensures v.async == o.async.GetOr(false)
    ensures v.showProgress == o.showProgress.GetOr(true)
    ensures v.isFresh == o.isFresh.GetOr(false)
    ensures v.reset == o.reset.GetOr([])
    ensures v.preserveUrl == o.preserveUrl.GetOr(false)
    ensures v.prefetch == o.prefetch.GetOr(false)
    ensures v.frame == o.frame.GetOr("_top")
  {
    var m := o.httpMethod.GetOr(Get);
    var forceFormData := o.forceFormData.GetOr(false);
    var format := o.queryStringArrayFormat.GetOr(Brackets);
    var transformed := transform(href, o.data.GetOr(map[]), m, forceFormData, format);
    PendingVisit(
      transformed.0, m, transformed.1,
      o.replace.GetOr(false), o.preserveScroll.GetOr(false), o.preserveState.GetOr(false),
      o.only.GetOr([]), o.except.GetOr([]), o.headers.GetOr(map[]), o.errorBag.GetOr(""),
      forceFormData, format, o.async.GetOr(false), o.showProgress.GetOr(true),
      o.isFresh.GetOr(false), o.reset.GetOr([]), o.preserveUrl.GetOr(false),
      o.prefetch.GetOr(false), o.frame.GetOr("_top"),
      false, false, false)
  }

  /** The caller's handler for the hook `h`, or the no-op when the caller gave none. */
  function Resolve(o: VisitOptions, h: Hook): Callback {
    if h in o.hooks then Handler(o.hooks[h]) else NoOp
  }

  /** `getVisitEvents(options)`: all ten callbacks, each the caller's or a no-op. */
  function GetVisitEvents(o: VisitOptions): (e: VisitCallbacks)
    ensures forall h: Hook :: e.At(h) == (if h in o.hooks then Handler(o.hooks[h]) else NoOp)
  {
    VisitCallbacks(
      Resolve(o, OnCancelToken), Resolve(o, OnBefore), Resolve(o, OnStart),
      Resolve(o, OnProgress), Resolve(o, OnFinish), Resolve(o, OnCancel),
      Resolve(o, OnSuccess), Resolve(o, OnError), Resolve(o, OnPrefetched),
      Resolve(o, OnPrefetching))
  }

  /** The options `visit` builds its descriptor from: progress, when not given, is shown exactly for visits that are not async. */
  function VisitDefaults(o: VisitOptions): VisitOptions {
    o.(showProgress := Some(o.showProgress.GetOr(!o.async.GetOr(false))))
  }

  /**
   * The options `get`, `post`, `put` and `patch` pass to `visit`: the method
   * forced, the `data` argument (or `{}`) over `options.data`, and, for every
   * method but `get`, `preserveState` defaulted to true.
   */
  function HelperOptions(m: HttpMethod, data: Option<Payload>, o: VisitOptions): VisitOptions {
    var base := if m == Get then o else o.(preserveState := Some(o.preserveState.GetOr(true)));
    base.(httpMethod := Some(m), data := Some(data.GetOr(map[])))
  }

  /** The options `delete` passes to `visit`: `preserveState` defaulted to true, the method forced; `data` stays the caller's. */
  function DeleteOptions(o: VisitOptions): VisitOptions {
    o.(preserveState := Some(o.preserveState.GetOr(true)), httpMethod := Some(Delete))
  }

  const CacheControl: string := "Cache-Control"
  const NoCache: string := "no-cache"

  /** The options `reload` passes to `visit`. */
  function ReloadOverrides(o: VisitOptions): VisitOptions {
    o.(preserveScroll := Some(true), preserveState := Some(true), async := Some(true),
       headers := Some(o.headers.GetOr(map[])[CacheControl := NoCache]))
  }

  /** The options `prefetch` (and the cache lookups) build their descriptor from. */
  function PrefetchOverrides(o: VisitOptions): VisitOptions {
    o.(async := Some(true), showProgress := Some(false), prefetch := Some(true))
  }

  /** `getPrefetchParams(href, options)`: the request a prefetch registers, used as the cache lookup key. */
  function GetPrefetchParams(href: string, o: VisitOptions, transform: Transformer): (p: ActiveVisit)
    ensures p.visit.async && !p.visit.showProgress && p.visit.prefetch
    ensures p.events == GetVisitEvents(o)
  {
    ActiveVisit(GetPendingVisit(href, PrefetchOverrides(o), transform), GetVisitEvents(o))
  }

  /** The caller's `poll` options and the settings the poller receives. */
  datatype PollOptions = PollOptions(autoStart: Option<bool>, keepAlive: Option<bool>)
  datatype PollSettings = PollSettings(autoStart: bool, keepAlive: bool)

  /** The poller's settings: auto-start unless the caller turns it off, keep-alive only when the caller turns it on. */
  function GetPollSettings(o: PollOptions): (s: PollSettings)
    ensures s.autoStart <==> o.autoStart != Some(false)
    ensures s.keepAlive <==> o.keepAlive == Some(true)
  {
    PollSettings(o.autoStart.GetOr(true), o.keepAlive.GetOr(false))
  }

  // ----- What the merges mean for the descriptor that is finally built -----

  /** `visit`: progress is shown by default exactly for visits that are not async. */
  lemma VisitShowsProgressUnlessAsync(href: string, o: VisitOptions, transform: Transformer)
    ensures var v := GetPendingVisit(href, VisitDefaults(o), transform);
      && (o.showProgress.None? ==> v.showProgress == !v.async)
      && (o.showProgress.Some? ==> v.showProgress == o.showProgress.value)
      && v.async == o.async.GetOr(false)
  {
  }

  /**
   * `get/post/put/patch`: the method is the helper's whatever `options.method`
   * says, the transformer receives the `data` argument, and `preserveState` is
   * the caller's if given, else true for every method but `get` (false there,
   * the descriptor's own default).
   */
  lemma HelperDescriptor(m: HttpMethod, href: string, data: Option<Payload>, o: VisitOptions, transform: Transformer)
    requires m != Delete
    ensures var v := GetPendingVisit(href, VisitDefaults(HelperOptions(m, data, o)), transform);
      && v.httpMethod == m
      && (v.url, v.data) == transform(href, data.GetOr(map[]), m, v.forceFormData, v.queryStringArrayFormat)
      && v.preserveState == o.preserveState.GetOr(m != Get)
      && v.preserveScroll == o.preserveScroll.GetOr(false)
      && v.async == o.async.GetOr(false)
      && v.only == o.only.GetOr([])
  {
  }

  /** `delete`: method forced, `preserveState` true unless given, the payload is `options.data`. */
  lemma DeleteDescriptor(href: string, o: VisitOptions, transform: Transformer)
    ensures var v := GetPendingVisit(href, VisitDefaults(DeleteOptions(o)), transform);
      && v.httpMethod == Delete
      && (v.url, v.data) == transform(href, o.data.GetOr(map[]), Delete, v.forceFormData, v.queryStringArrayFormat)
      && v.preserveState == o.preserveState.GetOr(true)
  {
  }

  /**
   * `reload`: scroll and state preserved and async whatever the caller said;
   * the caller's headers are kept except that `Cache-Control` is `no-cache`.
   */
  lemma ReloadDescriptor(href: string, o: VisitOptions, transform: Transformer)
    ensures var v := GetPendingVisit(href, VisitDefaults(ReloadOverrides(o)), transform);
      && v.preserveScroll && v.preserveState && v.async
      && v.showProgress == o.showProgress.GetOr(false)
      && v.headers.Keys == o.headers.GetOr(map[]).Keys + {CacheControl}
      && v.headers[CacheControl] == NoCache
      && (forall k :: k in o.headers.GetOr(map[]) && k != CacheControl ==> v.headers[k] == o.headers.value[k])
      && v.only == o.only.GetOr([])
  {
  }

  /** `prefetch`: async, no progress bar and marked as a prefetch, whatever the caller said. */
  lemma PrefetchDescriptor(href: string, o: VisitOptions, transform: Transformer)
    ensures var p := GetPrefetchParams(href, o, transform);
      && p.visit.async && !p.visit.showProgress && p.visit.prefetch
      && p.visit.httpMethod == o.httpMethod.GetOr(Get)
      && p.visit.only == o.only.GetOr([]) && p.visit.except == o.except.GetOr([])
      && p.events == GetVisitEvents(o)
  {
  }
}
