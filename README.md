# devtrace logging core, in Dafny

This project models the two modules of devtrace that decide what ends up in the
browser console.

- `vars-limit.ts` turns an arbitrary JavaScript value into a bounded, cycle-safe
  copy (`sanitizeForLog`) and into a capped string (`stringifyForLog`).
- `dev-instrumentation.ts` caps log payloads (`truncateObjectForLog`) and
  installs tracers once per page (`installDevInstrumentation`). The tracers wrap
  `fetch`, `XMLHttpRequest.prototype.open`/`send` and `postMessage`, and attach
  an incoming `message` listener.

Files:

- `common.dfy` (module `Common`): `Option`, prefixes, decimal digits and `join`.
- `json.dfy` (module `Json`): the values the sanitizer returns, and a concrete
  `JSON.stringify` over them. That covers string escaping, `undefined` written
  as `null` inside arrays, and object members holding `undefined` left out.
- `vars_limit.dfy` (module `VarsLimit`):
  - a JavaScript value is a scalar or a reference into a finite heap of arrays
    and records;
  - `Sanitized` is the recursive specification of `sanitizeInternal`;
  - `SanitizeInternal` is the imperative walk. It threads a mutable `SeenSet`
    (the `WeakSet`) through the recursion. Its two loops (`SanitizeItems`,
    `SanitizeEntries`) keep it in step with the specification through their
    loop invariants.
- `sanitizer_properties.dfy` (module `SanitizerProperties`): what the sanitizer
  promises, proved about `Sanitized`. This includes the central property: on an
  acyclic heap the `seen` set never cuts anything. A value shared by two sibling
  positions is copied twice and is not reported as `[Circular]`. The proof
  compares `Sanitized` with an independent copy function that uses no `seen`
  set.
- `dev_instrumentation.dfy` (module `DevInstrumentation`):
  - `truncateObjectForLog`, over an abstract serializer;
  - pure functions giving the console records and native calls of each tracer;
  - the installation guard, both as a function and as a `Window` class whose
    fields are the page state the tracers update: the installed flag, the
    silence flag, the XHR tables and the listeners;
  - the XHR forwarding finding below.

The `Window` class records the side effects in an `effects` list, in order.
These are console records (`Log`) and calls that reach a native primitive
(`Call`). Clocks are parameters (`started`, `settled`, `now`). The network
outcome of a fetch is a parameter too. `JSON.stringify`, as used by
`truncateObjectForLog`, is the window's `stringify` function, left
uninterpreted.

In these places the code behaves as follows, and the model follows it:

- The silence flag does not silence the message tracers. Only the fetch and XHR
  tracers read it (src/dev-instrumentation.ts:35, :75). `postMessage →` and
  `message ←` are logged regardless (:91-106).
- The XHR method, URL and start-time tables are never cleared. An entry lives as
  long as its `XMLHttpRequest` instance, and a later `loadend` on a reused
  instance sees the newest values. Only the `loadend` listeners are removed, as
  they fire (`{ once: true }`).
- The XHR tracers do not delegate to the native methods as written. See
  "Findings".
- A `__proto__` own property of a plain object is not copied. The copy assigns
  `result[key]` on an object literal, which calls the prototype setter instead
  of creating a property (src/vars-limit.ts:50). `KeptEntries` drops that key.

## Model

| member | source | states |
|---|---|---|
| VarsLimit.TruncateStringValue | src/vars-limit.ts:5-7 | a string within the limit is returned unchanged; a longer one becomes its first `limit` characters followed by `....`, so the result never exceeds `limit + 4` |
| VarsLimit.ObjectLabel | src/vars-limit.ts:55-58 | the label is the constructor name when it is a non-empty name other than `Object`, and the `toString` tag otherwise |
| VarsLimit.FunctionLabel | src/vars-limit.ts:32-34 | an anonymous function reads `[Function anonymous]`; a named one reads `[Function <name>]`, exactly 11 characters longer than its name, and is not truncated |
| VarsLimit.Sanitized | src/vars-limit.ts:15-60 | the sanitized value is `undefined` exactly when the input is `undefined`; the recursion terminates on every finite heap, cyclic or not |
| VarsLimit.KeptEntries | src/vars-limit.ts:48-51 | every copied entry is an entry of the original whose key is not `__proto__`, and there are no more of them than there were |
| VarsLimit.KeptEntriesComplete | src/vars-limit.ts:49-50 | every entry of the original whose key is not `__proto__` is copied |
| VarsLimit.IsPlainObject | src/vars-limit.ts:9-13 | a value is plain exactly when it is a non-array object whose prototype is `Object.prototype` or `null` |
| VarsLimit.SymbolToString | src/vars-limit.ts:29-30 | a symbol reads `Symbol(` + its description (empty when it has none) + `)` |
| VarsLimit.TooComplex | src/vars-limit.ts:74-76 | the placeholder is `[Object too complex to serialize: `, then the error's text, then `]` |
| VarsLimit.SeenShrinks | src/vars-limit.ts:36-37 | adding an unvisited object to `seen` shrinks the set of objects left to visit, which is why the walk terminates |
| VarsLimit.SeenSet.Has | src/vars-limit.ts:36 | membership test of the `WeakSet` |
| VarsLimit.SeenSet.Add | src/vars-limit.ts:37 | the set gains exactly the object |
| VarsLimit.SeenSet.Delete | src/vars-limit.ts:42 | the set loses exactly the object |
| VarsLimit.SanitizeInternal | src/vars-limit.ts:15-60 | the imperative walk returns exactly `Sanitized` of the value under the entry `seen` set, and leaves the `seen` set as it found it (each add is undone by a delete) |
| VarsLimit.SanitizeItems | src/vars-limit.ts:38-41 | the `for ... of` loop pushes, in order, each item sanitized under the current `seen` set (`SanitizedItems`) and leaves that set as it found it |
| VarsLimit.SanitizeEntries | src/vars-limit.ts:48-51 | the `Object.entries` loop yields each entry but `__proto__`, in order, with its value sanitized (`SanitizedEntries`), and leaves `seen` as it found it |
| VarsLimit.SanitizeForLog | src/vars-limit.ts:62-64 | the result is `Sanitized` starting from an empty `seen` set |
| VarsLimit.StringifyForLog | src/vars-limit.ts:66-76 | the serialized sanitized value when it fits in `limit`, else its first `limit` characters plus `....` (so at most `limit + 4` characters); `undefined` yields the too-complex placeholder, because serializing it gives no string |
| Json.Stringify | src/vars-limit.ts:69 | `JSON.stringify` of a sanitized value returns no string exactly when the value is `undefined` |
| SanitizerProperties.SanitizedScalars | src/vars-limit.ts:20-34 | `null`, numbers, booleans and `undefined` pass through; strings, bigints and symbols become truncated strings; functions become their label |
| SanitizerProperties.LongStringTruncated | src/vars-limit.ts:20-21 | a string longer than the limit comes back as exactly `limit + 4` characters: its prefix, then the marker |
| SanitizerProperties.SanitizedItemsAt | src/vars-limit.ts:38-41 | the pushed array has one element per item, and element `k` is item `k` sanitized under the same `seen` set |
| SanitizerProperties.SanitizedEntriesAt | src/vars-limit.ts:48-51 | the copied object has one member per kept entry, and member `k` carries entry `k`'s key and its sanitized value |
| SanitizerProperties.KeptDropsProtoKey | src/vars-limit.ts:49-50 | with distinct keys and `__proto__` at index `i`, the copy holds every other entry, in order: the entries before `i`, then those after it |
| SanitizerProperties.KeptWithoutProtoKey | src/vars-limit.ts:49-50 | without a `__proto__` key every entry is copied, in order |
| SanitizerProperties.SanitizedArray | src/vars-limit.ts:35-44 | an array not on the path becomes an array of the same length, element by element sanitized with the array added to the path |
| SanitizerProperties.SanitizedPlainObject | src/vars-limit.ts:45-54 | a plain object not on the path becomes an object with the same keys in the same order (less `__proto__`), each value sanitized with the object added to the path |
| SanitizerProperties.SanitizedOnPath | src/vars-limit.ts:36-46 | an array or plain object already on the recursion path becomes `[Circular]` |
| SanitizerProperties.SanitizedOtherObject | src/vars-limit.ts:55-59 | any other object becomes its bracketed label, truncated like a string |
| SanitizerProperties.SelfReferenceIsCircular | src/vars-limit.ts:45-54 | an object whose only property points to itself sanitizes to `{ self: "[Circular]" }` |
| SanitizerProperties.SanitizedIsTreeCopy | src/vars-limit.ts:36-53 | on an acyclic heap, while the path holds only containers ranked above the value, the sanitizer equals the plain recursive copy: `seen` never cuts a non-cycle |
| SanitizerProperties.ItemsAreTreeCopy | src/vars-limit.ts:38-41 | the same for the items of an array, position by position |
| SanitizerProperties.EntriesAreTreeCopy | src/vars-limit.ts:48-51 | the same for the entries of a plain object |
| SanitizerProperties.AcyclicSanitizedInFull | src/vars-limit.ts:62-64 | from the empty set `sanitizeForLog` starts with, on a heap in which no object lies on a cycle (a rank on every heap object, reachable from the value or not, that falls from each container to its children), a value is copied in full |
| SanitizerProperties.SharedSiblingsCopied | src/vars-limit.ts:42 | `[x, x]` with `x = [7]` gives `[[7], [7]]`: deleting from `seen` after a container lets a shared sibling be copied again |
| DevInstrumentation.OwnKeys | src/dev-instrumentation.ts:19 | `Object.keys`: an array's indices as decimal strings, or a record's keys in order, one per element or entry |
| DevInstrumentation.TruncateObjectForLog | src/dev-instrumentation.ts:10-27 | the value is returned unchanged exactly when its serialization fits `maxSize`; an oversized object gives the note `Object too large (<length> chars), showing keys only` with the serialized length, its own keys, and a sample of at most 500 characters plus `...`; an oversized non-object gives a size note; a serialization failure gives the too-complex placeholder |
| DevInstrumentation.FmtMs | src/dev-instrumentation.ts:8 | a duration is written as its decimal digits followed by `ms` |
| DevInstrumentation.FmtMsZero | src/dev-instrumentation.ts:8 | a zero duration is written `0ms` |
| DevInstrumentation.FetchUrl | src/dev-instrumentation.ts:38 | the logged URL is a Request's `url`, or the string or URL itself |
| DevInstrumentation.FetchMethod | src/dev-instrumentation.ts:39 | the logged method is never empty: a Request's own method, else `init.method`, else `GET` |
| DevInstrumentation.BodySample | src/dev-instrumentation.ts:40-43 | a sample exists exactly for a string body; it is a prefix of the body of at most 512 characters, and the whole body when that fits |
| DevInstrumentation.FetchRecordFields | src/dev-instrumentation.ts:38-47 | the record of a resolved fetch holds, in order, the logged method, the URL, the duration, the status, `ok` exactly for 2xx statuses, and the body sample of `init` |
| DevInstrumentation.FetchLog | src/dev-instrumentation.ts:44-53 | a resolved fetch logs `HTTP fetch` at info level with its request record; a rejected one logs `HTTP fetch failed` at error level with the duration and the rejection reason |
| DevInstrumentation.FetchEffects | src/dev-instrumentation.ts:32-56 | every fetch reaches the native fetch exactly once, before anything is logged; a traced, unsilenced fetch logs exactly one record, at error level iff the fetch rejected; otherwise nothing is logged; the record is the `FetchLog` entry |
| DevInstrumentation.PostMessageEffects | src/dev-instrumentation.ts:90-95 | with the tracer, exactly one info record precedes the native `postMessage`, which is always the last effect; the record is `postMessage →` with the `targetOrigin` and the message |
| DevInstrumentation.ReceivedMessageEffects | src/dev-instrumentation.ts:98-107 | with the listener attached, each incoming message gives exactly one info record, `message ←` with the event's `origin` and `data` |
| DevInstrumentation.XhrRecordFields | src/dev-instrumentation.ts:76-81 | a missing method reads `GET`, a missing URL `""`; the status is the instance's, `ok` is true exactly for 2xx statuses, and the body sample comes from the body `send` captured |
| DevInstrumentation.XhrDuration | src/dev-instrumentation.ts:78-79 | the duration is the time since the recorded start, and zero when no start was recorded |
| DevInstrumentation.LoadendEffects | src/dev-instrumentation.ts:74-83 | when `loadend` fires, each registered listener logs exactly one `HTTP xhr` record, in registration order, with its own body sample; nothing is logged while silenced |
| DevInstrumentation.AfterInstall | src/dev-instrumentation.ts:110-120 | a call after installation changes nothing; otherwise it sets the flag and adds one fetch and one XHR tracer when `network` is not false and the primitive exists, and one message tracer when `messages` is not false |
| DevInstrumentation.InstalledIsFinal | src/dev-instrumentation.ts:113 | once the installed flag is set, any number of further calls leave the wiring as it is |
| DevInstrumentation.FirstInstallDecides | src/dev-instrumentation.ts:110-120 | over any sequence of calls only the first decides: each primitive is wrapped at most once, and a first call with both options false leaves everything unwrapped for good |
| DevInstrumentation.XhrForwardAsWrittenOverflows | src/dev-instrumentation.ts:66-85 | as written, a traced `open` or `send` re-enters itself until the stack is exhausted and never reaches the native method |
| DevInstrumentation.XhrForwardCorrectedReachesNative | src/dev-instrumentation.ts:66-85 | forwarding to the handler saved before patching reaches the native method after exactly one tracer frame |
| DevInstrumentation.Window.constructor | src/dev-instrumentation.ts:112 | a fresh page has no tracers, no installed flag and an empty log |
| DevInstrumentation.Window.SetSilence | src/dev-instrumentation.ts:35 | the silence flag takes the given value |
| DevInstrumentation.Window.InstallDevInstrumentation | src/dev-instrumentation.ts:110-120 | the new wiring is `AfterInstall` of the old one, and the page invariant (at most one tracer per primitive, none before installation, none without the primitive, no XHR tables without the XHR tracer) is kept |
| DevInstrumentation.Window.InstallFetchTracer | src/dev-instrumentation.ts:29-57 | wraps `fetch` exactly when it exists |
| DevInstrumentation.Window.InstallXhrTracer | src/dev-instrumentation.ts:59-86 | wraps XHR exactly when it exists, with fresh empty tables |
| DevInstrumentation.Window.InstallMessageTracer | src/dev-instrumentation.ts:88-108 | adds the message tracer unconditionally |
| DevInstrumentation.Window.Fetch | src/dev-instrumentation.ts:32-56 | the caller gets exactly the native outcome (same response, same rejection) and the log grows by `FetchEffects` for the current tracer and silence state |
| DevInstrumentation.Window.XhrOpen | src/dev-instrumentation.ts:66-70 | with the tracer, the method and URL are recorded for the instance and the native `open` runs once with `async` defaulted to true; without it only the native call happens |
| DevInstrumentation.Window.XhrSend | src/dev-instrumentation.ts:72-85 | with the tracer, the start time is recorded and one more `loadend` listener, carrying the body, is registered; the native `send` runs once either way |
| DevInstrumentation.Window.XhrLoadEnd | src/dev-instrumentation.ts:74-83 | the instance's listeners are removed and the log grows by `LoadendEffects` over the instance's table entries |
| DevInstrumentation.Window.PostMessage | src/dev-instrumentation.ts:91-95 | the log grows by `PostMessageEffects` |
| DevInstrumentation.Window.ReceiveMessage | src/dev-instrumentation.ts:98-107 | the log grows by `ReceivedMessageEffects` |
| DevInstrumentation.FetchNotFoundLogged | src/dev-instrumentation.ts:44-48 | a 404 response is logged once, at info level, with `status: 404` and `ok: false` |
| DevInstrumentation.FetchRejectionLogged | src/dev-instrumentation.ts:50-54 | a rejection is logged once, at error level, with the rejection reason itself as `error` |
| DevInstrumentation.SilencedFetchForwardsOnly | src/dev-instrumentation.ts:35-37 | with the silence flag set, a traced fetch only forwards to the native fetch |

## Left out

- Sanitized: getters that throw, proxies, and deep structures that exhaust the stack are not modelled, so `stringifyForLog`'s catch block is reached only through `undefined`.
- Strings are sequences of Dafny characters, not UTF-16 code units, so lengths and cut points differ from JavaScript's for characters outside the Basic Multilingual Plane.
- Numbers are integers: `NaN`, infinities, fractions, `-0` and exponent notation (and how `JSON.stringify` writes them) are not modelled. Durations are whole milliseconds, which makes `fmtMs`'s `toFixed(0)` rounding the identity.
- Array holes are not distinguished from `undefined` elements, and `Object.entries` order is taken as given in each record.
- TruncateObjectForLog: the serializer is abstract (a parameter), so the model does not relate its text to the value; `keys` are the record's own keys as modelled.
- Promises and timing: a fetch is modelled as settled at once with a given outcome. `await` ordering against other tasks is not modelled.
- FetchEffects: a rejection while silenced is passed on without a record, because the silent branch returns the native promise without awaiting it. That is what the function states; no separate lemma covers it.
- FetchMethod: when `input` is a Request and `init.method` also names a method, the log shows the Request's method, which is what the code does.
- Fetch inputs other than a Request, a string or a URL are not modelled.
- `user ?? null` / `password ?? null` / `body ?? null`: `undefined` and `null` are the same `None` in the model.
- ReceivedMessageEffects, Window.ReceiveMessage: the catch branch of the incoming-message listener, which logs a bare `message ←` record with no payload (src/dev-instrumentation.ts:104-105), is not modelled; both members always promise a record carrying the data. That branch is reached when the catch block of `truncateObjectForLog` throws while converting the error to a string (see the `TruncateObjectForLog` line). A message the browser delivers is a structured clone, whose serialization errors are TypeErrors that convert. But an event that page code builds and dispatches carries its `data` as it is, so a `toJSON` that throws a Symbol reaches the bare record: `window.dispatchEvent(new MessageEvent('message', { data: { toJSON() { throw Symbol('x') } } }))`.
- The mechanics of patching (`bind`, replacing globals, `addEventListener` plumbing) are replaced by the `Window` fields that count tracers and hold listeners. Native `open`/`send` failures such as `InvalidStateError` are not modelled.
- Window.XhrOpen, Window.XhrSend: they model the corrected delegation to the native methods (see Findings), not the recursion as written.
- TruncateObjectForLog: the catch block builds its message with `${error}`, which itself throws when the thrown value is a Symbol or an object with no usable string conversion, such as one with a `null` prototype. The model assumes the error always converts. So PostMessageEffects, FetchEffects and Window.Fetch do not cover these two cases: a `postMessage` whose message has a `toJSON` throwing such a value throws before logging and before forwarding; a fetch rejected with such a reason gives its caller that TypeError instead of the reason, with no record.
- TruncateStringValue, StringifyForLog, TruncateObjectForLog: `limit` and `maxSize` are natural numbers. The exported functions accept any number. A negative `limit` makes `slice(0, limit)` count from the end, so `truncateStringValue('abcdef', -2)` is `'abcd....'`, and a negative `maxSize` truncates every value. Negative and fractional limits are not modelled.
- StringifyForLog: the text of the TypeError for `undefined` is V8's wording (`UNDEFINED_LENGTH_ERROR`). The code promises only `String(error)`, and other engines word this error differently.

## Findings

| source | as written | input that shows it | evidently intended | confidence | as-written member | corrected member |
|---|---|---|---|---|---|---|
| src/dev-instrumentation.ts:66-85 | the `open` and `send` wrappers forward to `XMLHttpRequest.prototype.open` / `.send`, which after installation hold the wrappers themselves, so each call re-enters the wrapper until the stack overflows; the native method is never reached and `send` registers a `loadend` listener per frame | after `installDevInstrumentation()`, any `new XMLHttpRequest().open("GET", "/")` | save the native `open` and `send` before patching, and forward to those | not executed | DevInstrumentation.XhrForwardAsWrittenOverflows | DevInstrumentation.XhrForwardCorrectedReachesNative |
