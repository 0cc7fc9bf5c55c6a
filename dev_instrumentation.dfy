/**
 * The decision logic of `dev-instrumentation.ts`: the size cap on log payloads,
 * the one-shot installation guard, and what each tracer logs and forwards.
 *
 * The browser is a `Window` object. Its `effects` list records, in order, every
 * console record the tracers emit and every call that reaches a native
 * primitive. `JSON.stringify` is the window's `stringify` function, left
 * abstract; durations are whole milliseconds.
 */
module DevInstrumentation {
  import opened Common
  import opened VarsLimit

  /** The default `maxSize` of `truncateObjectForLog`. */
  const DEFAULT_MAX_SIZE: nat := 1024 * 10
  /** How much serialized text an oversized object keeps as its sample. */
  const KEYS_SAMPLE_LENGTH: nat := 500
  /** How much of a string request body the tracers log. */
  const BODY_SAMPLE_LENGTH: nat := 512

  // ---------------------------------------------------------------------------
  // truncateObjectForLog

  /**
   * What `JSON.stringify` did with a value. A call that yields `undefined`
   * instead of text is `Threw` too: reading its `.length` throws a TypeError.
   */
  datatype Serialization = Serialized(text: string) | Threw(error: string)

  /** A value handed to `truncateObjectForLog`: an object literal a tracer builds, or any application value. */
  datatype LogValue = Literal(fields: seq<Entry>) | AppValue(value: Value)

  /** The host's `JSON.stringify`, which this model does not interpret. */
  type Serializer = (Heap, LogValue) -> Serialization

  predicate LogValueIn(obj: LogValue, h: Heap) {
    match obj
    case Literal(fields) => forall i :: 0 <= i < |fields| ==> RefsIn(fields[i].value, h)
    case AppValue(v) => RefsIn(v, h)
  }

  /** `typeof obj === 'object' && obj !== null`. */
  predicate IsObject(obj: LogValue) {
    obj.Literal? || obj.value.Ref?
  }

  /** `Object.keys(obj)`: array indices, or the keys of the own enumerable properties in order. */
  function OwnKeys(h: Heap, obj: LogValue): (r: seq<string>)
    requires LogValueIn(obj, h) && IsObject(obj)
    ensures obj.Literal? ==> |r| == |obj.fields| && forall i :: 0 <= i < |r| ==> r[i] == obj.fields[i].key
    ensures obj.AppValue? && h[obj.value.id].ArrayObj? ==>
      |r| == |h[obj.value.id].items| && forall i :: 0 <= i < |r| ==> r[i] == DecimalString(i)
    ensures obj.AppValue? && h[obj.value.id].RecordObj? ==>
      |r| == |h[obj.value.id].entries| && forall i :: 0 <= i < |r| ==> r[i] == h[obj.value.id].entries[i].key
  {
    match obj
    case Literal(fields) => seq(|fields|, i requires 0 <= i < |fields| => fields[i].key)
    case AppValue(v) =>
      match h[v.id]
      case ArrayObj(items) => seq(|items|, i => DecimalString(i))
      case RecordObj(_, entries, _, _) => seq(|entries|, i requires 0 <= i < |entries| => entries[i].key)
  }

  /** What `truncateObjectForLog` returns. */
  datatype Truncated =
    | Unchanged(obj: LogValue)
    | KeysOnly(truncated: string, keys: seq<string>, sample: string)
    | Placeholder(text: string)

  /**
   * `truncateObjectForLog`: the value itself when its serialization fits in
   * `maxSize`; otherwise its keys and a 500-character sample (objects) or a
   * size note (anything else). A serialization failure becomes a placeholder
   * carrying the error's text.
   */
  function TruncateObjectForLog(h: Heap, obj: LogValue, serialized: Serialization, maxSize: nat := DEFAULT_MAX_SIZE): (r: Truncated)
    requires LogValueIn(obj, h)
    ensures r.Unchanged? <==> serialized.Serialized? && |serialized.text| <= maxSize
    ensures r.Unchanged? ==> r.obj == obj
    ensures r.KeysOnly? <==> serialized.Serialized? && |serialized.text| > maxSize && IsObject(obj)
    ensures r.KeysOnly? ==>
      r.truncated == "Object too large (" + DecimalString(|serialized.text|) + " chars), showing keys only"
      && r.keys == OwnKeys(h, obj)
      && r.sample == Prefix(serialized.text, KEYS_SAMPLE_LENGTH) + "..."
      && |r.sample| <= KEYS_SAMPLE_LENGTH + 3
    ensures serialized.Serialized? && |serialized.text| > maxSize && !IsObject(obj) ==>
      r == Placeholder("[Data truncated: " + DecimalString(|serialized.text|) + " chars]")
    ensures serialized.Threw? ==> r == Placeholder(TooComplex(serialized.error))
  {
    match serialized
    case Threw(error) => Placeholder(TooComplex(error))
    case Serialized(text) =>
      if |text| <= maxSize then Unchanged(obj)
      else if IsObject(obj) then
        KeysOnly("Object too large (" + DecimalString(|text|) + " chars), showing keys only",
                 OwnKeys(h, obj), Prefix(text, KEYS_SAMPLE_LENGTH) + "...")
      else Placeholder("[Data truncated: " + DecimalString(|text|) + " chars]")
  }

  // ---------------------------------------------------------------------------
  // Request metadata

  /** A time or duration from `performance.now()`, in whole milliseconds. */
  type Millis = int

  /** `fmtMs`. */
  function FmtMs(ms: Millis): (r: string)
    ensures |r| >= 3 && r[|r| - 2..] == "ms"
    ensures r[..|r| - 2] == DecimalString(ms)
  {
    DecimalString(ms) + "ms"
  }

  /** A zero duration is written `0ms`. */
  lemma FmtMsZero()
    ensures FmtMs(0) == "0ms"
  {
    assert Digit(0) == '0';
    assert NatDigits(0) == "0";
  }

  /** A request body: a string, or anything else (Blob, FormData, Document, ...). */
  datatype Body = TextBody(text: string) | OtherBody

  /** The first argument of `fetch`. */
  datatype FetchInput = RequestInput(url: string, httpMethod: string) | TextInput(text: string) | UrlInput(href: string)

  datatype RequestInit = RequestInit(httpMethod: Option<string>, body: Option<Body>)

  datatype Response = Response(status: int)

  datatype FetchOutcome = Resolved(response: Response) | Rejected(reason: Value)

  predicate OutcomeIn(outcome: FetchOutcome, h: Heap) {
    outcome.Rejected? ==> RefsIn(outcome.reason, h)
  }

  /** A 2xx status: `res.ok` for fetch, `status >= 200 && status < 300` for XHR. */
  predicate StatusOk(status: int) {
    200 <= status < 300
  }

  /** The URL the fetch tracer logs: a Request's `url`, or `String(input)` for a string or a URL. */
  function FetchUrl(input: FetchInput): (r: string)
    ensures input.RequestInput? ==> r == input.url
    ensures input.TextInput? ==> r == input.text
    ensures input.UrlInput? ==> r == input.href
  {
    match input
    case RequestInput(url, _) => url
    case TextInput(text) => text
    case UrlInput(href) => href
  }

  /**
   * The method the fetch tracer logs: a Request's own method, else `init.method`,
   * each replaced by `"GET"` when missing or empty. A Request's method wins even
   * when `init` overrides it.
   */
  function FetchMethod(input: FetchInput, init: Option<RequestInit>): (m: string)
    ensures m != ""
    ensures input.RequestInput? ==> m == (if input.httpMethod != "" then input.httpMethod else "GET")
    ensures !input.RequestInput? && init.Some? && init.value.httpMethod.Some? && init.value.httpMethod.value != "" ==>
      m == init.value.httpMethod.value
    ensures !input.RequestInput? && (init.None? || init.value.httpMethod.None? || init.value.httpMethod.value == "") ==>
      m == "GET"
  {
    if input.RequestInput? then (if input.httpMethod != "" then input.httpMethod else "GET")
    else if init.Some? && init.value.httpMethod.Some? && init.value.httpMethod.value != "" then init.value.httpMethod.value
    else "GET"
  }

  /** The logged sample of a body: its first 512 characters when it is a string, `undefined` otherwise. */
  function BodySample(body: Option<Body>): (r: Option<string>)
    ensures r.Some? <==> body.Some? && body.value.TextBody?
    ensures r.Some? ==>
      |r.value| <= BODY_SAMPLE_LENGTH && r.value <= body.value.text
      && (|body.value.text| <= BODY_SAMPLE_LENGTH ==> r.value == body.value.text)
  {
    if body.Some? && body.value.TextBody? then Some(Prefix(body.value.text, BODY_SAMPLE_LENGTH)) else None
  }

  /** The fetch tracer samples only a body passed in `init`, never one inside a Request. */
  function FetchBodySample(init: Option<RequestInit>): Option<string> {
    if init.Some? then BodySample(init.value.body) else None
  }

  function OptionalText(s: Option<string>): Value {
    if s.Some? then Str(s.value) else Undefined
  }

  /** `{ method, url, duration, status, ok, bodySample }`, the record of a completed request. */
  function RequestRecord(httpMethod: string, url: string, took: Millis, status: int, ok: bool,
                         bodySample: Option<string>): (r: seq<Entry>)
    ensures |r| == 6 && forall i :: 0 <= i < |r| ==> !r[i].value.Ref?
  {
    [Entry("method", Str(httpMethod)), Entry("url", Str(url)), Entry("duration", Str(FmtMs(took))),
     Entry("status", Num(status)), Entry("ok", Bool(ok)), Entry("bodySample", OptionalText(bodySample))]
  }

  // ---------------------------------------------------------------------------
  // What the tracers do

  datatype Level = Info | Error

  /** One `console.info` / `console.error` call: a label and, usually, a truncated payload. */
  datatype LogEntry = LogEntry(level: Level, caption: string, data: Option<Truncated>)

  /** An XMLHttpRequest instance, by identity. */
  type XhrId = nat

  /** A call that reaches a native primitive. */
  datatype NativeCall =
    | NativeFetch(input: FetchInput, init: Option<RequestInit>)
    | NativePostMessage(message: Value, targetOrigin: string, transfer: Option<seq<Value>>)
    | NativeOpen(xhr: XhrId, httpMethod: string, url: string, async: Option<bool>, user: Option<string>, password: Option<string>)
    | NativeSend(xhr: XhrId, body: Option<Body>)

  datatype Effect = Log(entry: LogEntry) | Call(call: NativeCall)

  function LogCount(effects: seq<Effect>): nat {
    if effects == [] then 0 else (if effects[0].Log? then 1 else 0) + LogCount(effects[1..])
  }

  /** A console record whose payload is `record` passed through `truncateObjectForLog`. */
  function Emit(h: Heap, level: Level, caption: string, record: LogValue, stringify: Serializer): Effect
    requires LogValueIn(record, h)
  {
    Log(LogEntry(level, caption, Some(TruncateObjectForLog(h, record, stringify(h, record)))))
  }

  /** The record of a fetch that resolved with `response`. */
  function FetchRecord(input: FetchInput, init: Option<RequestInit>, response: Response, took: Millis): LogValue {
    Literal(RequestRecord(FetchMethod(input, init), FetchUrl(input), took, response.status,
                          StatusOk(response.status), FetchBodySample(init)))
  }

  /**
   * What a resolved fetch's record holds, in order: the logged method and URL,
   * the duration, the status, `ok` exactly for 2xx statuses, and the sample of a
   * string body passed in `init`.
   */
  lemma FetchRecordFields(input: FetchInput, init: Option<RequestInit>, response: Response, took: Millis)
    ensures var r := FetchRecord(input, init, response, took);
      r.Literal? && |r.fields| == 6
      && r.fields[0] == Entry("method", Str(FetchMethod(input, init)))
      && r.fields[1] == Entry("url", Str(FetchUrl(input)))
      && r.fields[2] == Entry("duration", Str(FmtMs(took)))
      && r.fields[3] == Entry("status", Num(response.status))
      && r.fields[4] == Entry("ok", Bool(200 <= response.status < 300))
      && r.fields[5] == Entry("bodySample", OptionalText(FetchBodySample(init)))
  {
  }

  function FetchFailureRecord(reason: Value, took: Millis): LogValue {
    Literal([Entry("duration", Str(FmtMs(took))), Entry("error", reason)])
  }

  /** The record the fetch tracer logs once the native fetch settles: info level on a response, error level on a rejection. */
  function FetchLog(h: Heap, input: FetchInput, init: Option<RequestInit>, outcome: FetchOutcome, took: Millis,
                    stringify: Serializer): (e: Effect)
    requires OutcomeIn(outcome, h)
    ensures e.Log? && e.entry.data.Some?
    ensures e.entry.level == Info <==> outcome.Resolved?
    ensures outcome.Resolved? ==>
      e == Emit(h, Info, "HTTP fetch", FetchRecord(input, init, outcome.response, took), stringify)
    ensures outcome.Rejected? ==>
      e == Emit(h, Error, "HTTP fetch failed", FetchFailureRecord(outcome.reason, took), stringify)
  {
    match outcome
    case Resolved(response) => Emit(h, Info, "HTTP fetch", FetchRecord(input, init, response, took), stringify)
    case Rejected(reason) => Emit(h, Error, "HTTP fetch failed", FetchFailureRecord(reason, took), stringify)
  }

  /**
   * What one call of `window.fetch` does, with or without the tracer (`traced`):
   * it reaches the native fetch exactly once, first; then, unless the tracer is
   * absent or silenced, it logs exactly one record, at error level iff the
   * native call rejected.
   */
  function FetchEffects(h: Heap, traced: bool, silenced: bool, input: FetchInput, init: Option<RequestInit>,
                        outcome: FetchOutcome, took: Millis, stringify: Serializer): (r: seq<Effect>)
    requires OutcomeIn(outcome, h)
    ensures |r| == (if traced && !silenced then 2 else 1)
    ensures r[0] == Call(NativeFetch(input, init))
    ensures |r| == 2 ==> r[1].Log? && (r[1].entry.level == Info <==> outcome.Resolved?)
    ensures |r| == 2 ==> r[1] == FetchLog(h, input, init, outcome, took, stringify)
    ensures LogCount(r) == |r| - 1
  {
    var r := [Call(NativeFetch(input, init))]
      + (if traced && !silenced then [FetchLog(h, input, init, outcome, took, stringify)] else []);
    assert LogCount(r[1..]) == |r| - 1;
    r
  }

  /** Outgoing `postMessage`: with the tracer installed, one record, then the native call; the silence flag plays no part. */
  function PostMessageEffects(h: Heap, traced: bool, message: Value, targetOrigin: string,
                              transfer: Option<seq<Value>>, stringify: Serializer): (r: seq<Effect>)
    requires RefsIn(message, h)
    ensures |r| == (if traced then 2 else 1)
    ensures r[|r| - 1] == Call(NativePostMessage(message, targetOrigin, transfer))
    ensures traced ==> r[0].Log? && r[0].entry.level == Info
    ensures traced ==> r[0] == Emit(h, Info, "postMessage \U{2192}",
      Literal([Entry("targetOrigin", Str(targetOrigin)), Entry("message", message)]), stringify)
    ensures LogCount(r) == |r| - 1
  {
    var call := Call(NativePostMessage(message, targetOrigin, transfer));
    var r :=
      if traced then
        [Emit(h, Info, "postMessage \U{2192}", Literal([Entry("targetOrigin", Str(targetOrigin)), Entry("message", message)]), stringify), call]
      else [call];
    assert LogCount(r[1..]) == 0;
    r
  }

  /** An incoming `message` event: with the listener attached, one record; the silence flag plays no part. */
  function ReceivedMessageEffects(h: Heap, listening: bool, origin: string, data: Value, stringify: Serializer): (r: seq<Effect>)
    requires RefsIn(data, h)
    ensures |r| == (if listening then 1 else 0)
    ensures listening ==> r[0].Log? && r[0].entry.level == Info && r[0].entry.data.Some?
    ensures listening ==> r[0] == Emit(h, Info, "message \U{2190}",
      Literal([Entry("origin", Str(origin)), Entry("data", data)]), stringify)
  {
    if listening then
      [Emit(h, Info, "message \U{2190}", Literal([Entry("origin", Str(origin)), Entry("data", data)]), stringify)]
    else []
  }

  /**
   * The record the `loadend` listener builds from the instance's tables: a
   * missing method is `"GET"`, a missing url `""`, a missing start time "now".
   */
  function XhrRecord(httpMethod: Option<string>, url: Option<string>, started: Option<Millis>, now: Millis,
                     status: int, body: Option<Body>): LogValue
  {
    Literal(RequestRecord(httpMethod.GetOr("GET"), url.GetOr(""), now - started.GetOr(now), status,
                          StatusOk(status), BodySample(body)))
  }

  /**
   * What the `loadend` record holds, in order: the recorded method or `GET`, the
   * recorded URL or `""`, the duration (see `XhrDuration`), the instance's status,
   * `ok` exactly for 2xx statuses, and the sample of the body `send` captured.
   */
  lemma XhrRecordFields(httpMethod: Option<string>, url: Option<string>, started: Option<Millis>, now: Millis,
                        status: int, body: Option<Body>)
    ensures var r := XhrRecord(httpMethod, url, started, now, status, body);
      r.Literal? && |r.fields| == 6
      && r.fields[0] == Entry("method", Str(if httpMethod.Some? then httpMethod.value else "GET"))
      && r.fields[1] == Entry("url", Str(if url.Some? then url.value else ""))
      && r.fields[3] == Entry("status", Num(status))
      && r.fields[4] == Entry("ok", Bool(200 <= status < 300))
      && r.fields[5] == Entry("bodySample", OptionalText(BodySample(body)))
  {
  }

  /**
   * The logged duration is the time since the recorded start, and zero when no start was recorded
   * (`FmtMsZero` gives the `0ms` text).
   */
  lemma XhrDuration(httpMethod: Option<string>, url: Option<string>, started: Option<Millis>, now: Millis,
                    status: int, body: Option<Body>)
    ensures var r := XhrRecord(httpMethod, url, started, now, status, body);
      r.Literal? && |r.fields| == 6
      && r.fields[2] == Entry("duration", Str(FmtMs(if started.Some? then now - started.value else 0)))
  {
  }

  /** What one `loadend` listener logs: the `HTTP xhr` record of its instance, with the body it captured. */
  function XhrLog(httpMethod: Option<string>, url: Option<string>, started: Option<Millis>, now: Millis,
                  status: int, body: Option<Body>, stringify: Serializer): Effect
  {
    Emit(map[], Info, "HTTP xhr", XhrRecord(httpMethod, url, started, now, status, body), stringify)
  }

  /**
   * `loadend` on one instance: each listener that `send` registered fires once;
   * each logs one record unless the silence flag is set when it fires.
   */
  function LoadendEffects(silenced: bool, httpMethod: Option<string>, url: Option<string>, started: Option<Millis>,
                          now: Millis, status: int, listeners: seq<Option<Body>>, stringify: Serializer): (r: seq<Effect>)
    ensures silenced ==> r == []
    ensures !silenced ==> |r| == |listeners| && LogCount(r) == |listeners|
    ensures !silenced ==> forall i :: 0 <= i < |r| ==>
      r[i] == XhrLog(httpMethod, url, started, now, status, listeners[i], stringify)
  {
    if silenced then []
    else
      var r := seq(|listeners|, i requires 0 <= i < |listeners| =>
                 XhrLog(httpMethod, url, started, now, status, listeners[i], stringify));
      AllLogs(r);
      r
  }

  /** A list of console records holds as many records as it has elements. */
  lemma {:induction false} AllLogs(effects: seq<Effect>)
    requires forall i :: 0 <= i < |effects| ==> effects[i].Log?
    ensures LogCount(effects) == |effects|
  {
    if effects != [] {
      AllLogs(effects[1..]);
    }
  }

  function Lookup<V>(table: map<XhrId, V>, xhr: XhrId): Option<V> {
    if xhr in table then Some(table[xhr]) else None
  }

  // ---------------------------------------------------------------------------
  // Installation

  /** `InstallOpts`; `None` is an omitted option. */
  datatype InstallOpts = InstallOpts(network: Option<bool>, messages: Option<bool>)

  /** The installed flag and how many tracers wrap each primitive. */
  datatype Wiring = Wiring(installed: bool, fetchTracers: nat, xhrTracers: nat, messageTracers: nat)

  const UNINSTALLED := Wiring(false, 0, 0, 0)

  /**
   * `installDevInstrumentation`: nothing once the flag is set; otherwise one
   * fetch and one XHR tracer when `network` (default true) and the primitive
   * exists, one message tracer when `messages` (default true), and the flag.
   */
  function AfterInstall(w: Wiring, opts: InstallOpts, hasFetch: bool, hasXhr: bool): (r: Wiring)
    ensures w.installed ==> r == w
    ensures r.installed
    ensures !w.installed ==>
      r.fetchTracers - w.fetchTracers == (if opts.network != Some(false) && hasFetch then 1 else 0)
      && r.xhrTracers - w.xhrTracers == (if opts.network != Some(false) && hasXhr then 1 else 0)
      && r.messageTracers - w.messageTracers == (if opts.messages != Some(false) then 1 else 0)
  {
    if w.installed then w
    else
      var network := opts.network.GetOr(true);
      var messages := opts.messages.GetOr(true);
      Wiring(true,
             w.fetchTracers + (if network && hasFetch then 1 else 0),
             w.xhrTracers + (if network && hasXhr then 1 else 0),
             w.messageTracers + (if messages then 1 else 0))
  }

  /** A sequence of installation calls, in order. */
  function InstallAll(w: Wiring, calls: seq<InstallOpts>, hasFetch: bool, hasXhr: bool): Wiring
    decreases |calls|
  {
    if calls == [] then w else InstallAll(AfterInstall(w, calls[0], hasFetch, hasXhr), calls[1..], hasFetch, hasXhr)
  }

  /** Once the flag is set, further installation calls change nothing. */
  lemma {:induction false} InstalledIsFinal(w: Wiring, calls: seq<InstallOpts>, hasFetch: bool, hasXhr: bool)
    requires w.installed
    ensures InstallAll(w, calls, hasFetch, hasXhr) == w
  {
    if calls != [] {
      InstalledIsFinal(AfterInstall(w, calls[0], hasFetch, hasXhr), calls[1..], hasFetch, hasXhr);
    }
  }

  /**
   * Only the first installation call counts, whatever its options: each
   * primitive is wrapped at most once, and a first call with both options false
   * leaves every primitive unwrapped for good.
   */
  lemma FirstInstallDecides(calls: seq<InstallOpts>, hasFetch: bool, hasXhr: bool)
    requires calls != []
    ensures InstallAll(UNINSTALLED, calls, hasFetch, hasXhr) == AfterInstall(UNINSTALLED, calls[0], hasFetch, hasXhr)
    ensures var w := InstallAll(UNINSTALLED, calls, hasFetch, hasXhr);
      w.installed && w.fetchTracers <= 1 && w.xhrTracers <= 1 && w.messageTracers <= 1
    ensures calls[0] == InstallOpts(Some(false), Some(false)) ==>
      InstallAll(UNINSTALLED, calls, hasFetch, hasXhr) == Wiring(true, 0, 0, 0)
  {
    InstalledIsFinal(AfterInstall(UNINSTALLED, calls[0], hasFetch, hasXhr), calls[1..], hasFetch, hasXhr);
  }

  // ---------------------------------------------------------------------------
  // The XHR tracers' forwarding

  /** A handler held by an `XMLHttpRequest.prototype` slot (`open` or `send`). */
  datatype Handler = NativeHandler | TracerHandler

  /** How a call ended, and how many tracer frames ran (each records metadata, or registers a listener). */
  datatype Dispatch = ReachedNative(tracerFrames: nat) | StackOverflow(tracerFrames: nat)

  /** Calls `handler` with room for `depth` frames; a tracer frame forwards to `next`. */
  function Invoke(handler: Handler, next: Handler, depth: nat): Dispatch
    decreases depth
  {
    if depth == 0 then StackOverflow(0)
    else
      match handler
      case NativeHandler => ReachedNative(0)
      case TracerHandler =>
        match Invoke(next, next, depth - 1)
        case ReachedNative(n) => ReachedNative(n + 1)
        case StackOverflow(n) => StackOverflow(n + 1)
  }

  /**
   * As written, the tracers forward to `XMLHttpRequest.prototype.open` / `.send`,
   * read when they run; by then that slot holds the tracer itself.
   */
  const FORWARD_AS_WRITTEN := TracerHandler
  /** Saving the slot's handler before patching it forwards to the native one. */
  const FORWARD_CORRECTED := NativeHandler

  /** As written, a traced `open` or `send` never reaches the native handler, whatever the stack depth. */
  lemma {:induction false} XhrForwardAsWrittenOverflows(depth: nat)
    ensures Invoke(TracerHandler, FORWARD_AS_WRITTEN, depth) == StackOverflow(depth)
  {
    if depth > 0 {
      XhrForwardAsWrittenOverflows(depth - 1);
    }
  }

  /** Forwarding to the saved handler reaches the native one after exactly one tracer frame. */
  lemma XhrForwardCorrectedReachesNative(depth: nat)
    requires depth >= 2
    ensures Invoke(TracerHandler, FORWARD_CORRECTED, depth) == ReachedNative(1)
  {
  }

  // ---------------------------------------------------------------------------
  // The browser window

  class Window {
    /** `'fetch' in window` and `'XMLHttpRequest' in window`. */
    const hasFetch: bool
    const hasXhr: bool
    /** The host's `JSON.stringify`. */
    const stringify: Serializer

    /** `window.__devInstrInstalled__`. */
    var installed: bool
    /** `window.__stackLoggerSilence__`, set and cleared by other code. */
    var silence: bool
    var fetchTracers: nat
    var xhrTracers: nat
    var messageTracers: nat
    /** The XHR tracer's per-instance tables; entries are never removed. */
    var methodCache: map<XhrId, string>
    var urlCache: map<XhrId, string>
    var startCache: map<XhrId, Millis>
    /** The `loadend` listeners `send` registered on each instance, with the body each captured. */
    var loadendListeners: map<XhrId, seq<Option<Body>>>
    /** Console records and native calls, in the order they happen. */
    var effects: seq<Effect>

    ghost predicate Valid()
      reads this
    {
      fetchTracers <= 1 && xhrTracers <= 1 && messageTracers <= 1
      && (!installed ==> fetchTracers == 0 && xhrTracers == 0 && messageTracers == 0)
      && (!hasFetch ==> fetchTracers == 0)
      && (!hasXhr ==> xhrTracers == 0)
      && (xhrTracers == 0 ==>
            methodCache == map[] && urlCache == map[] && startCache == map[] && loadendListeners == map[])
    }

    function CurrentWiring(): Wiring
      reads this
    {
      Wiring(installed, fetchTracers, xhrTracers, messageTracers)
    }

    constructor (hasFetch: bool, hasXhr: bool, stringify: Serializer)
      ensures Valid()
      ensures this.hasFetch == hasFetch && this.hasXhr == hasXhr && this.stringify == stringify
      ensures CurrentWiring() == UNINSTALLED && !silence && effects == []
    {
      this.hasFetch := hasFetch;
      this.hasXhr := hasXhr;
      this.stringify := stringify;
      installed := false;
      silence := false;
      fetchTracers, xhrTracers, messageTracers := 0, 0, 0;
      methodCache, urlCache, startCache, loadendListeners := map[], map[], map[], map[];
      effects := [];
    }

    /** Another module sets or clears the silence flag. */
    method SetSilence(on: bool)
      requires Valid()
      modifies this`silence
      ensures Valid() && silence == on
    {
      silence := on;
    }

    /** `installDevInstrumentation`. */
    method InstallDevInstrumentation(opts: InstallOpts)
      requires Valid()
      modifies this`installed, this`fetchTracers, this`xhrTracers, this`messageTracers,
               this`methodCache, this`urlCache, this`startCache, this`loadendListeners
      ensures Valid()
      ensures CurrentWiring() == AfterInstall(old(CurrentWiring()), opts, hasFetch, hasXhr)
      ensures methodCache == old(methodCache) && urlCache == old(urlCache)
      ensures startCache == old(startCache) && loadendListeners == old(loadendListeners)
    {
      var network := opts.network.GetOr(true);
      var messages := opts.messages.GetOr(true);
      if installed {
        return;
      }
      if network {
        InstallFetchTracer();
        InstallXhrTracer();
      }
      if messages {
        InstallMessageTracer();
      }
      installed := true;
    }

    /** `installFetchTracer`: wraps `window.fetch` when it exists. */
    method InstallFetchTracer()
      modifies this`fetchTracers
      ensures fetchTracers == old(fetchTracers) + (if hasFetch then 1 else 0)
    {
      if !hasFetch {
        return;
      }
      fetchTracers := fetchTracers + 1;
    }

    /** `installXHRTracer`: fresh, empty tables and a wrapped `open` and `send`, when XHR exists. */
    method InstallXhrTracer()
      modifies this`xhrTracers, this`methodCache, this`urlCache, this`startCache, this`loadendListeners
      ensures xhrTracers == old(xhrTracers) + (if hasXhr then 1 else 0)
      ensures hasXhr ==> methodCache == map[] && urlCache == map[] && startCache == map[] && loadendListeners == map[]
      ensures !hasXhr ==>
        methodCache == old(methodCache) && urlCache == old(urlCache)
        && startCache == old(startCache) && loadendListeners == old(loadendListeners)
    {
      if !hasXhr {
        return;
      }
      methodCache, urlCache, startCache := map[], map[], map[];
      loadendListeners := map[];
      xhrTracers := xhrTracers + 1;
    }

    /** `installMessageTracer`: wraps `postMessage` and attaches the `message` listener. */
    method InstallMessageTracer()
      modifies this`messageTracers
      ensures messageTracers == old(messageTracers) + 1
    {
      messageTracers := messageTracers + 1;
    }

    /**
     * The application calls `window.fetch`; the native fetch settles with
     * `outcome` at `settled`. The caller sees exactly `outcome`: the same
     * response, or the same rejection reason.
     */
    method Fetch(h: Heap, input: FetchInput, init: Option<RequestInit>, outcome: FetchOutcome,
                 started: Millis, settled: Millis) returns (result: FetchOutcome)
      requires Valid() && hasFetch && OutcomeIn(outcome, h)
      modifies this`effects
      ensures Valid()
      ensures result == outcome
      ensures effects == old(effects) + FetchEffects(h, fetchTracers > 0, silence, input, init, outcome, settled - started, stringify)
    {
      effects := effects + [Call(NativeFetch(input, init))];
      if fetchTracers > 0 && !silence {
        effects := effects + [FetchLog(h, input, init, outcome, settled - started, stringify)];
      }
      result := outcome;
    }

    /** The application calls `xhr.open(method, url, async?, user?, password?)`. */
    method XhrOpen(xhr: XhrId, httpMethod: string, url: string, async: Option<bool>, user: Option<string>, password: Option<string>)
      requires Valid()
      modifies this`methodCache, this`urlCache, this`effects
      ensures Valid()
      ensures xhrTracers > 0 ==>
        methodCache == old(methodCache)[xhr := httpMethod] && urlCache == old(urlCache)[xhr := url]
        && effects == old(effects) + [Call(NativeOpen(xhr, httpMethod, url, Some(async.GetOr(true)), user, password))]
      ensures xhrTracers == 0 ==>
        methodCache == old(methodCache) && urlCache == old(urlCache)
        && effects == old(effects) + [Call(NativeOpen(xhr, httpMethod, url, async, user, password))]
    {
      if xhrTracers == 0 {
        effects := effects + [Call(NativeOpen(xhr, httpMethod, url, async, user, password))];
        return;
      }
      methodCache := methodCache[xhr := httpMethod];
      urlCache := urlCache[xhr := url];
      effects := effects + [Call(NativeOpen(xhr, httpMethod, url, Some(async.GetOr(true)), user, password))];
    }

    /** The application calls `xhr.send(body?)` at time `now`. */
    method XhrSend(xhr: XhrId, body: Option<Body>, now: Millis)
      requires Valid()
      modifies this`startCache, this`loadendListeners, this`effects
      ensures Valid()
      ensures xhrTracers > 0 ==>
        startCache == old(startCache)[xhr := now]
        && loadendListeners == old(loadendListeners)[xhr := Lookup(old(loadendListeners), xhr).GetOr([]) + [body]]
      ensures xhrTracers == 0 ==> startCache == old(startCache) && loadendListeners == old(loadendListeners)
      ensures effects == old(effects) + [Call(NativeSend(xhr, body))]
    {
      if xhrTracers > 0 {
        startCache := startCache[xhr := now];
        loadendListeners := loadendListeners[xhr := Lookup(loadendListeners, xhr).GetOr([]) + [body]];
      }
      effects := effects + [Call(NativeSend(xhr, body))];
    }

    /**
     * The instance `xhr` fires `loadend` with `status` at time `now`: its
     * listeners run once and are removed; the tables keep their entries.
     */
    method XhrLoadEnd(xhr: XhrId, status: int, now: Millis)
      requires Valid()
      modifies this`loadendListeners, this`effects
      ensures Valid()
      ensures loadendListeners == old(loadendListeners) - {xhr}
      ensures effects == old(effects)
        + LoadendEffects(silence, Lookup(methodCache, xhr), Lookup(urlCache, xhr), Lookup(startCache, xhr),
                         now, status, Lookup(old(loadendListeners), xhr).GetOr([]), stringify)
    {
      var listeners := Lookup(loadendListeners, xhr).GetOr([]);
      loadendListeners := loadendListeners - {xhr};
      effects := effects + LoadendEffects(silence, Lookup(methodCache, xhr), Lookup(urlCache, xhr),
                                          Lookup(startCache, xhr), now, status, listeners, stringify);
    }

    /** The application calls `window.postMessage(message, targetOrigin, transfer?)`. */
    method PostMessage(h: Heap, message: Value, targetOrigin: string, transfer: Option<seq<Value>>)
      requires Valid() && RefsIn(message, h)
      modifies this`effects
      ensures Valid()
      ensures effects == old(effects) + PostMessageEffects(h, messageTracers > 0, message, targetOrigin, transfer, stringify)
    {
      var call := Call(NativePostMessage(message, targetOrigin, transfer));
      if messageTracers > 0 {
        var record := Literal([Entry("targetOrigin", Str(targetOrigin)), Entry("message", message)]);
        effects := effects + [Emit(h, Info, "postMessage \U{2192}", record, stringify)];
      }
      effects := effects + [call];
    }

    /** A `message` event with `origin` and `data` reaches the window. */
    method ReceiveMessage(h: Heap, origin: string, data: Value)
      requires Valid() && RefsIn(data, h)
      modifies this`effects
      ensures Valid()
      ensures effects == old(effects) + ReceivedMessageEffects(h, messageTracers > 0, origin, data, stringify)
    {
      if messageTracers > 0 {
        var record := Literal([Entry("origin", Str(origin)), Entry("data", data)]);
        effects := effects + [Emit(h, Info, "message \U{2190}", record, stringify)];
      }
    }
  }

  // ---------------------------------------------------------------------------
  // Scenarios

  /** A fetch answered with 404 logs one info record with `status: 404` and `ok: false`. */
  lemma FetchNotFoundLogged(h: Heap, input: FetchInput, init: Option<RequestInit>, took: Millis, stringify: Serializer)
    ensures var r := FetchEffects(h, true, false, input, init, Resolved(Response(404)), took, stringify);
      var record := FetchRecord(input, init, Response(404), took);
      |r| == 2 && r[1] == Emit(h, Info, "HTTP fetch", record, stringify)
      && record.fields[3] == Entry("status", Num(404)) && record.fields[4] == Entry("ok", Bool(false))
  {
  }

  /** A rejected fetch logs one error record that carries the rejection reason itself. */
  lemma FetchRejectionLogged(h: Heap, input: FetchInput, init: Option<RequestInit>, reason: Value, took: Millis,
                             stringify: Serializer)
    requires RefsIn(reason, h)
    ensures var r := FetchEffects(h, true, false, input, init, Rejected(reason), took, stringify);
      |r| == 2 && r[1] == Emit(h, Error, "HTTP fetch failed", FetchFailureRecord(reason, took), stringify)
      && FetchFailureRecord(reason, took).fields[1] == Entry("error", reason)
  {
  }

  /** With the silence flag set, a traced fetch only forwards. */
  lemma SilencedFetchForwardsOnly(h: Heap, input: FetchInput, init: Option<RequestInit>, outcome: FetchOutcome,
                                  took: Millis, stringify: Serializer)
    requires OutcomeIn(outcome, h)
    ensures FetchEffects(h, true, true, input, init, outcome, took, stringify) == [Call(NativeFetch(input, init))]
  {
  }
}
