# tl resource engine in Dafny

This project models the data layer of the `tl` browser library and proves properties of it.

The library keeps named, observable values. A `Resource` holds:
- a value and a `meta` object tagged with `__type`;
- a list of subscriptions, each a callback with `once` and `empty` flags.

Each resource is bound to a list of backends, its *syncs*:
- `query` asks every backend for the value and runs the subscriptions with each answer.
- `update` races a `set` across the backends. It commits the value when the first one to settle accepts it, and rejects without committing when that one rejects.

A `Sync` is a backend with two processor chains:
- `preprocess` sends an outgoing value through `pre` and packs it with the resource's name and meta;
- `postprocess` undoes that through `post`.

The other pieces modelled:
- A `Dict` is a resource whose value is a de-duplicated list of keys, each naming a child resource that is loaded once and kept in a cache.
- `LocalStorageSync` keeps preprocessed values in the browser's string store under `<sync name>.<resource name>`.
- `ConnectionBasedSync` queues outgoing messages while its connection is down and flushes them through `pre` once it opens; a message whose `pre` run rejects is dropped. It decodes inbound data through `post` and dispatches it on its `method`:
  - a `get` event is answered with `got`;
  - `got` and `set` events update a watched resource.
- `String.prototype.format` substitutes `{N}` placeholders.

How the model is built:
- JavaScript values are a datatype (`JsValues.JsValue`). A function is known by its identity.
- Classes whose fields the code updates in place are Dafny classes whose methods state their whole new state, with `old`.
- Each expression-only part is a function, and each method is proved against one of those functions.
- Backends and the transport are not called. What they answered is a parameter:
  - one `Result` per backend for a `get`;
  - how the first `set` settled for a race.
- Callback invocations, `connect` calls and `deliver` calls are recorded in `trace`, `connects` and `delivered`.
- Timers are explicit: a pending timer is a handle in `timers`, and `FireTimer` runs one.
- One asynchronous chain is one step. Answers are handled in backend order.

Modules, one per file:
- `JsValues` (js_values.dfy): values, `typeof`, property reads, `String()`.
- `StringFormat` (format.dfy).
- `Resources` (resource.dfy).
- `Pipeline` (pipeline.dfy): processors and `Sync`.
- `Dicts` (dict.dfy).
- `LocalStorage` (local_storage.dfy).
- `ConnectionSync` (connection.dfy).
- `Scenarios` (scenarios.dfy): short end-to-end runs over several objects.

The model follows the code where the code and its documentation part ways:
- A second `closed()` starts a second reconnect timer; it does not replace the first.
- `watch` is keyed by resource name alone.

## Model

| member | source | states |
|---|---|---|
| JsValues.GetProp | connectionbasedsync.js:55-56 | reading a property throws exactly when the value is null or undefined |
| JsValues.DecimalRoundTrip | core.js:297-298 | the decimal text of n is canonical and reads back as n, so `{n}` names argument n |
| StringFormat.DigitRun | core.js:297 | the `\d+` group: the longest all-digit prefix, followed by a non-digit or the end |
| StringFormat.DigitRunStops | core.js:297 | the digit group of `d}rest` is exactly `d` |
| StringFormat.FormatPlaceholder | core.js:297-302 | a leading `{d}` is replaced by its substitution and the rest is formatted independently |
| StringFormat.FormatDefinedArgument | core.js:287-299 | `{n}` with a defined argument n becomes that argument's text, booleans as yes/no |
| StringFormat.FormatUndefinedArgument | core.js:298-300 | `{n}` with n out of range or an undefined argument is kept verbatim |
| StringFormat.FormatLeadingZero | core.js:297-300 | `{0d}` never names an argument and is kept verbatim |
| StringFormat.FormatWithoutPlaceholders | core.js:297-302 | text in which no position starts a `{digits}` match is returned unchanged, whatever braces it holds |
| StringFormat.BraceWithoutPlaceholderKept | core.js:297-302 | `{a}`, `{}` and an unclosed `x{1` are kept as text |
| StringFormat.PlaceholderKeptWithoutArguments | core.js:297-300 | with no arguments a leading placeholder is copied through |
| StringFormat.FormatWithoutArguments | core.js:284-304 | with no arguments every text comes back unchanged |
| Resources.DropOnce | core.js:143-150 | the entries left after a dispatch are the non-`once` entries, each one taken from the list |
| Resources.OnceIndices | core.js:136-147 | the collected positions are strictly ascending, in range, and each holds a `once` entry |
| Resources.RemoveAt | core.js:149 | `splice(i, 1)` shortens the list by one when i is in range |
| Resources.SpliceFromTopAppend | core.js:148-150 | splicing from the top is unaffected by an entry appended past every position |
| Resources.SpliceFromTopOnceLast | core.js:143-150 | a trailing `once` entry is the first one spliced and is dropped |
| Resources.SpliceFromTopPlainLast | core.js:143-150 | a trailing plain entry survives at the end |
| Resources.SpliceFromTopDropsOnce | core.js:135-151 | splicing the collected positions highest first leaves exactly the non-`once` entries in order |
| Resources.AscendingSpliceWithOneOnce | core.js:143-150 | as written, the ascending splice is right while at most one entry is `once` |
| Resources.TwoOnceThenPlain | core.js:143-147 | positions and survivors of the list `once, once, plain` |
| Resources.AscendingSpliceRemovesWrongEntry | core.js:148-150 | as written, with `once, once, plain` the second `once` entry survives and the plain entry is removed |
| Resources.InvokedDefined | core.js:137-142 | for a defined value every entry fires, in list order |
| Resources.InvokedEmpty | core.js:137-142 | for null or undefined exactly the entries with `empty` fire |
| Resources.DropOnceKeepsPlain | core.js:143-150 | without `once` entries a dispatch removes nothing |
| Resources.LastMatch | core.js:83-88 | the last position holding the callback, or -1 exactly when no entry holds it |
| Resources.CallsToAppend | core.js:141 | the calls one callback receives from two runs are those of the first run, then those of the second |
| Resources.InvokedNotSubscribed | core.js:137-142 | a callback that is not subscribed is never invoked |
| Resources.DropOnceNotSubscribed | core.js:143-150 | a dispatch never adds a subscription |
| Resources.ArriveNotSubscribed | core.js:40-47 | an answer never reaches a callback that is not subscribed |
| Resources.OneshotFirstArrival | core.js:40-47 | a trailing `oneshot` entry fires on the first answer if it is defined, and is removed either way |
| Resources.OneshotFiresOnFirstAnswer | core.js:37-50 | a `oneshot` callback receives only the first answer that arrives, and none if it is null or undefined; it is gone after that answer, and nothing happens while no answer arrives |
| Resources.DefinedAnswerFiresTwice | core.js:42-45 | a defined answer runs every plain subscription twice: directly, then through `onupdate` |
| Resources.FreshCallback | connectionbasedsync.js:67 | a new closure is a function that no existing entry holds |
| Resources.MaxId | connectionbasedsync.js:67 | an id at least as large as every callback id in the list |
| Resources.UnpackPack | core.js:152-168 | unpacking a packed value gives back the value and installs the meta that was packed |
| Resources.UnpackEdges | core.js:159-165 | `unpack(null)` is null and installs no meta; any other non-object throws |
| Resources.MetaTypeCheckNeverFires | core.js:109-111 | the `__type` check fails exactly when reading `meta` throws, never because `__type` is missing |
| Resources.CallbacksStep | core.js:137-147 | one more entry adds its own call and position last |
| Resources.AbsorbedStep | core.js:38-49 | handling one more answer extends the handled prefix by that answer |
| Resources.Resource.constructor | core.js:2-30 | name, backends and value as given; meta is the given object, or `{}`, tagged with the type name; no subscriptions |
| Resources.Resource.Subscribe | core.js:51-78 | a function is appended as one entry with the given flags; anything else throws and changes nothing |
| Resources.Resource.OnEmpty | core.js:51-60 | appends one `empty` entry, or throws on a non-function |
| Resources.Resource.Register | core.js:61-69 | appends one plain entry, or throws on a non-function |
| Resources.Resource.Oneshot | core.js:70-78 | appends one `once` entry, or throws on a non-function |
| Resources.Resource.Unregister | core.js:79-92 | removes only the last entry holding that very callback; no-op when none does; throws on a non-function |
| Resources.Resource.RunCallbacks | core.js:135-151 | the trace grows by the firing entries in list order; the list becomes its non-`once` entries (corrected splice) |
| Resources.Resource.SpliceOut | core.js:148-150 | the corrected splice loop computes the highest-first removal |
| Resources.Resource.OnUpdate | core.js:124-134 | the value is stored and the subscriptions run with it |
| Resources.Resource.Arrival | core.js:40-47 | one defined answer runs the subscriptions directly, then stores it and runs them again; a null answer runs them once and is not stored |
| Resources.Resource.Handle | core.js:39-47 | a rejected `get` runs no handler; an answer runs `Arrival` |
| Resources.Resource.SyncGet | core.js:34-50 | the answers are handled in order; the value is the last defined answer; the result is `Promise.all` of the answers |
| Resources.Resource.Query | core.js:102-104 | one answer per bound backend, handled as by `_syncget` |
| Resources.Resource.QueryPrimary | core.js:93-101 | only the first backend is asked; the result is its answer, or null with no backend |
| Resources.Resource.Update | core.js:105-123 | undefined throws; with no backend or no settling `set` the promise never settles; a rejected winner rejects; otherwise the value is committed and the subscriptions run with it |
| Pipeline.FoldAppend | core.js:231-258 | running two chains in turn is running their concatenation; a rejection ends the run |
| Pipeline.FoldLast | core.js:241-251 | the last processor sees what the earlier ones made of the value |
| Pipeline.EmptyChainsRoundTrip | core.js:238-240 | empty chains hand every value back |
| Pipeline.PostprocessUndoesPreprocess | core.js:201-230 | for round-tripping chains, postprocessing what preprocessing produced gives the value back (null for null or undefined) and installs the packed meta |
| Pipeline.JsonViewOfSafe | core.js:400-407 | JSON keeps a value with no undefined and no function inside exactly |
| Pipeline.JsonDropsUndefinedField | core.js:400-407 | an object field holding undefined is lost through JSON |
| Pipeline.JsonPreGivesText | core.js:401-403 | the JSON `pre` step turns a value into its JSON text, and undefined or a function into undefined |
| Pipeline.JsonPostParses | core.js:404-406 | the JSON `post` step turns a value's text back into what JSON keeps of it |
| Pipeline.JsonRoundTrips | core.js:400-407 | a JSON processor on both chains gives back every defined value JSON keeps whole |
| Pipeline.Sync.constructor | core.js:185-200 | chains as given; a `relay` that is not an array becomes empty; meta tagged `sync` |
| Pipeline.Sync.RunThrough | core.js:231-258 | null or undefined gives null without running any processor; an empty chain gives the value; otherwise the processors run in chain order and the first rejection ends the run |
| Pipeline.Sync.Preprocess | core.js:201-215 | marshal, chain, prestore, pack, chain |
| Pipeline.Sync.Postprocess | core.js:216-230 | chain, unpack (installing meta), poststore, chain, unmarshal; the meta stays installed when a later step rejects |
| Dicts.Dedup | core.js:325 | `Array.from(new Set(..))` keeps the same keys, each once |
| Dicts.DedupOfDistinct | core.js:325 | a list without repeats is its own de-duplication |
| Dicts.DedupAppendPresent | core.js:364-367 | appending a listed key changes nothing |
| Dicts.DedupAppendAbsent | core.js:364-367 | appending a new key puts it last |
| Dicts.AddTwiceListsOnce | core.js:360-368 | adding a key twice lists it exactly once, and the second add changes nothing |
| Dicts.IndexOf | core.js:370 | the first position of the key, or -1 exactly when it is absent |
| Dicts.TextIndexOf | core.js:370 | `indexOf` on a string: the first position where the text occurs, or -1 exactly when it occurs nowhere |
| Dicts.ValueIndexOf | core.js:370 | `indexOf` succeeds exactly on an array (searched for the key) or a string (searched for the key's text), and throws on any other value |
| Dicts.LengthBelowOne | core.js:361 | reading `key.length` throws exactly on null or undefined; a string compares its length; a number or boolean has none, so the test is false |
| Dicts.RemoveAtShifts | core.js:379 | `splice(i, 1)` keeps the keys before i and shifts those after it down by one |
| Dicts.RemoveFromDistinct | core.js:369-381 | removing a key from a list without repeats drops exactly that key and keeps every other one |
| Dicts.Dict.constructor | core.js:307-314 | the key list starts empty whatever value was given; the cache starts empty |
| Dicts.Dict.LoadSubvalueOf | core.js:382-398 | a cached child is returned; a listed string key whose query succeeds gets a new child, named after the key, bound to the dictionary's backends, of the child type and holding the last defined answer, which is then cached; a failed query caches nothing; an unlisted key is rejected; a listed key that is not a string throws in the child's constructor |
| Dicts.Dict.LoadSubvalue | core.js:315-323 | cached children are kept and every new entry is the child made for a listed key; when every uncached key is a string whose query succeeds the result is the cache, holding every key; a failure names an uncached key; an uncached key that is not a string throws out of the loop, so no later key is loaded and the throw is the result |
| Dicts.Dict.LoadKey | core.js:316-318 | one pass of the loading loop: key i is found cached, or gets its new child, or fails, the first failure being kept; a throw is reported exactly for an uncached key that is not a string, and leaves the cache alone |
| Dicts.Dict.KeyLoaded | core.js:316-318 | the loop state after a pass follows from what the pass did to the cache and the failure |
| Dicts.Dict.LoadFinished | core.js:319-322 | once every key is passed, the loop settles to this dictionary or to its first failure, as `update` states |
| Dicts.Dict.LoadThrew | core.js:316-318 | a throw at key i settles to the constructor's throw, with only keys before i loaded |
| Dicts.Dict.Update | core.js:324-334 | the given child is cached; without a commit the list and subscriptions stay, the race settles to its winner's rejection, an unreadable meta rejects and an unsettled race never settles; on commit the list is de-duplicated, the subscriptions run, and the keys load: kept children stay, new ones are the fresh children made for listed keys, and the result is this dictionary whenever every key loads |
| Dicts.Dict.Add | core.js:360-368 | a key of length below one changes nothing; a null or undefined key, or a value that is not an array, throws and changes nothing; otherwise the given child is cached, and without a commit nothing else changes; on commit the list becomes the de-duplicated list plus the key, loaded as by `update` |
| Dicts.Dict.Remove | core.js:369-381 | `indexOf` on a value with none, or a null or undefined key, throws and changes nothing; a key of length below one or not found changes nothing; on a string value a found key drops its child, then throws; otherwise the key's child and its first occurrence go, the other keys stay in order, and the rest is updated and loaded as by `update` |
| Dicts.Dict.RemoveListed | core.js:374-380 | for a listed key, the child is dropped, the first occurrence spliced out and the rest updated and loaded as by `update`, new children being fresh |
| Dicts.Dict.Query | core.js:343-356 | the resource query, then every listed key loaded, whatever the outcome keeping cached children and adding only the children made for listed keys; when the query and every load succeed, the subscriptions run with the children |
| Dicts.Dict.QueryPrimary | core.js:335-342 | as `Query`, asking only the first backend |
| Dicts.Dict.LoadAndNotify | core.js:351-356 | `loadSubs` keeps cached children and adds only the children made for listed keys; it succeeds whenever every key loads, and then the subscriptions run with the cache of children |
| LocalStorage.StoreKeyInjective | core.js:412-419 | within one sync, two resources never share a slot |
| LocalStorage.StoreKeysOfDottedNamesCollide | core.js:413 | across syncs with dotted names, two resources can share a slot |
| LocalStorage.StoredValueComesBack | core.js:412-422 | a value stored through round-tripping chains that produce text reads back with its meta |
| LocalStorage.JsonViewOfPack | core.js:152-158 | through JSON the packed record keeps what JSON keeps of its meta and value |
| LocalStorage.JsonStoredRecordReadsBack | core.js:412-415 | reading a stored record back installs what JSON kept of the meta and runs the post chain on what it kept of the value |
| LocalStorage.JsonStoreRoundTrip | core.js:400-423 | with JSON processors every value is stored as text; null, undefined and functions read back as null, anything else as what JSON keeps of it; the meta likewise |
| LocalStorage.JsonStoreKeepsSafeValues | core.js:400-423 | a value and meta that JSON keeps whole read back exactly |
| LocalStorage.UnprocessedStoreIsUnreadable | core.js:416-419 | without processors the store keeps `[object Object]`, which reads back as a rejection |
| LocalStorage.Storage.constructor | core.js:413 | the store holds the given items |
| LocalStorage.LocalStorageSync.constructor | core.js:409-411 | the arguments reach `Sync` one slot off: `meta` becomes `relay`, `value` becomes meta, and the value is undefined |
| LocalStorage.LocalStorageSync.Get | core.js:412-415 | the stored text, or null, is postprocessed |
| LocalStorage.LocalStorageSync.Set | core.js:416-423 | the text of the preprocessed value is stored under the resource's slot; a rejection stores nothing |
| ConnectionSync.TransmitAppend | connectionbasedsync.js:145-162 | flushing two queues in turn delivers what flushing their concatenation delivers |
| ConnectionSync.TransmitInOrder | connectionbasedsync.js:149-161 | each message is delivered once, in queue order, with its own processed payload |
| ConnectionSync.InboundNeedsMethodAndName | connectionbasedsync.js:41-60 | a decoded message is dispatched exactly when it is an object with defined `method` and `name` |
| ConnectionSync.NoAnswerNoReply | connectionbasedsync.js:66-86 | without any relay answer a `get` event sends nothing |
| ConnectionSync.NoOkAnswer | core.js:37-50 | when every backend rejects, no answer arrives |
| ConnectionSync.ConnectionBasedSync.Init | connectionbasedsync.js:6-14 | disconnected, empty queue, empty watch, no timer, timeout 2000 |
| ConnectionSync.ConnectionBasedSync.Create | connectionbasedsync.js:4-24 | throws when `connect` or `deliver` is not a function; otherwise a fresh instance over the `Sync` part |
| ConnectionSync.ConnectionBasedSync.Process | connectionbasedsync.js:145-162 | when connected, the queue is emptied and each message whose `pre` run settles is delivered, in queue order (a rejected run drops its message); otherwise nothing happens |
| ConnectionSync.ConnectionBasedSync.Send | connectionbasedsync.js:135-144 | one message with `method` and `name` is added at the tail, then the queue is processed; null throws |
| ConnectionSync.ConnectionBasedSync.Closed | connectionbasedsync.js:32-36 | disconnected, and one new timer whose handle replaces the slot |
| ConnectionSync.ConnectionBasedSync.Reconnect | connectionbasedsync.js:37-40 | the slot is cleared before `connect` is called |
| ConnectionSync.ConnectionBasedSync.FireTimer | connectionbasedsync.js:34-40 | a pending timer runs once: it stops pending and `_reconnect` runs |
| ConnectionSync.ConnectionBasedSync.Opened | connectionbasedsync.js:25-31 | corrected: connected, the pending reconnect is cancelled and the queue flushed in order |
| ConnectionSync.ConnectionBasedSync.OpenedAsWritten | connectionbasedsync.js:25-31 | as written: connected, but with a handle in the slot it throws before flushing |
| ConnectionSync.ConnectionBasedSync.ResourceUpdated | connectionbasedsync.js:87-99 | defined `data` for a watched name goes to that resource's `onupdate`; otherwise nothing changes |
| ConnectionSync.ConnectionBasedSync.ResourceEventGet | connectionbasedsync.js:66-86 | a `oneshot` subscriber is added and the resource queried; its reply, if any, is queued as one `got` message |
| ConnectionSync.ConnectionBasedSync.ResourceEvent | connectionbasedsync.js:61-65 | `get`, `got` and `set` run their handlers; any other method changes nothing |
| ConnectionSync.ConnectionBasedSync.Decode | connectionbasedsync.js:41-60 | decoding and `should_process` give the route of the message, which is always an object |
| ConnectionSync.ConnectionBasedSync.Delivery | connectionbasedsync.js:41-53 | an undecodable or incomplete message, or an unknown method, changes nothing; otherwise the event runs |
| ConnectionSync.ConnectionBasedSync.Get | connectionbasedsync.js:100-124 | a watched name returns null and sends nothing; otherwise the resource is watched and one `get` request is queued |
| ConnectionSync.ConnectionBasedSync.Set | connectionbasedsync.js:125-134 | the watch entry is overwritten, one `set` message with the preprocessed data is queued, and the result is the resource |
| Scenarios.AnswerReachesSubscriberTwice | core.js:37-50 | a `register` subscriber sees one defined answer twice |
| Scenarios.OneAnswerOneSubscriber | core.js:40-47 | one plain subscriber and one defined answer: two calls, and the value is kept |
| Scenarios.OneshotSeesFirstAnswerOnly | core.js:37-50 | a `oneshot` subscriber sees only the first of two answers and is then gone |
| Scenarios.UnboundResourceNeverUpdates | core.js:105-123 | with no backend a query gives nothing and an update never settles |
| Scenarios.DictAddTwice | core.js:360-368 | adding one key twice to a new dictionary lists it once |
| Scenarios.AddCommitted | core.js:360-368 | one accepted `add` appends the key to the de-duplicated list |
| Scenarios.LocalStorageRoundTrip | core.js:408-424 | a value JSON keeps whole, set through a JSON-processed local store, reads back |
| Scenarios.LocalStorageLosesFunction | core.js:400-424 | a function set through a JSON-processed local store reads back as null |
| Scenarios.JsonStoreSetup | core.js:408-411 | a JSON-processed sync over a fresh store, and a resource whose meta JSON keeps whole |
| Scenarios.SendWhileClosed | connectionbasedsync.js:135-148 | while disconnected, `send` queues at the tail and delivers nothing |
| Scenarios.QueuedMessagesFlushInOrder | connectionbasedsync.js:135-162 | messages queued while closed are delivered in order on open |
| Scenarios.DoubleDropReconnectsTwice | connectionbasedsync.js:32-40 | two drops leave two timers, so `connect` runs twice |
| Scenarios.ReopenAsWritten | connectionbasedsync.js:25-31 | as written, reopening after a drop throws and keeps the queue |
| Scenarios.NextSendFlushesAfterFailedReopen | connectionbasedsync.js:25-31 | as written, after the failed reopen the next `send` flushes the whole queue in order |
| Scenarios.ReopenCorrected | connectionbasedsync.js:25-31 | corrected, reopening after a drop flushes the queue and leaves no timer |
| Scenarios.SameNameSharesWatch | connectionbasedsync.js:100-134 | two resources with one name share a watch slot; the later `set` wins and `get` on the first sends nothing |

## Left out

- Promise scheduling and interleaving:
  - each asynchronous chain is one step;
  - the backends' answers arrive in backend order;
  - `Promise.race` is given its winner.
- `Dict` loads: because the loads of one pass run one after the other, a key listed twice is created once (the code could start two loads).
- Calls into backends, processors, the transport (`connect`, `deliver`) and subscription callbacks are outside the model. Backend answers are parameters. Only subscription callbacks, `connect` and `deliver` are recorded (`trace`, `connects`, `delivered`); backend `get`/`set` calls and processor calls leave no record. Side effects a callback or a subclass hook might have are not modelled.
- Resources.Resource.SyncGet: a backend's effect on the resource it is handed is not modelled. For example, `LocalStorageSync.get` installs the stored meta through `unpack` (core.js:216-230, 412-415), but `SyncGet` and `Resources.Resource.Query` take the answers as bare values and leave the meta as it was.
- Processors do not see the resource they are handed.
- `Sync`'s own `Resource` behaviour and its default `get`/`set` are not modelled; only the parts the chains use are.
- `Bound` (core.js:267-281) is not part of this model: it only caches bound functions.
- `console` logging.
- The SHA-512 digest and `btoa` are a `digest` parameter.
- `JSON.stringify`/`JSON.parse` are an abstract codec. The law it is assumed to obey (`Pipeline.CodecLaw`) says what JSON does to the values modelled here. Undefined and functions have no text. Any other value reads back as its `Pipeline.JsonView`, which drops object fields holding undefined or a function and turns such array elements into null. `toJSON` methods, non-finite numbers and cyclic values are not modelled.
- `localStorage` is an injected `Storage` object.
- Numbers are integers: floating point is not modelled.
- Property reads return the fields of a plain object only. The `__proto__` key and other inherited properties are not modelled, except in `watch` lookups (`ConnectionSync.WatchHas`).
- ConnectionSync.ConnectionBasedSync.Delivery: `msg.name` is converted to text with `String()` as soon as it is read, since a resource name is a string here. The source assigns it unconverted (connectionbasedsync.js:50), so a numeric name would go out as a number in the `got` reply and in the packed record; only its uses as a property key convert it.
- `Dicts.Dict`: for `loadSubvalue` and `contains`, a value that is not an array lists no keys; `for...in` over a string or an object would walk its positions or fields instead.
- `Dicts.Dict`: a child is a plain `Resource` of the given type, not an instance of a subclass.
- `Dicts.Dict`: the JSON copy of the list in `add`/`remove` is treated as exact; list elements that are undefined or functions would come back as null.
- `Dicts.Dict`: the cache map is copied by value, so aliasing of a children map handed to callbacks is not modelled.
- Resources.Resource.constructor: a null meta (the constructor would throw writing `__type`) and an array meta (which would carry `__type` as a property) are excluded by `requires`. The same holds for `Pipeline.Sync.constructor`, `Dicts.Dict.constructor`, `LocalStorage.LocalStorageSync.constructor` and `ConnectionSync.ConnectionBasedSync.Create`.
- ConnectionSync.ConnectionBasedSync.Send: an array `msg` (which would carry the fields as properties) is excluded by `requires`.
- ConnectionSync.ConnectionBasedSync.ResourceUpdated: requires a non-null message, as `delivery` only passes decoded objects.
- ConnectionSync.ConnectionBasedSync.ResourceEvent: requires that the resource is not one already watched, as `delivery` always passes a new one.
- ConnectionSync.ConnectionBasedSync.Delivery: for a `get` event it states only that some resource is named in the queued `got` message, not which one (it is the new resource made inside the call).
- ConnectionSync.ConnectionBasedSync.Process: the `throw` for a message without a resource cannot happen, since every queued message carries one. Messages queued during a pass by `deliver` itself are not modelled, because `deliver` is foreign.
- Dicts.Dict.LoadSubvalue: on a rejection from a query it states only that some listed key was neither cached nor loadable, not which one. Keys are compared structurally (in `Dicts.Dedup`, `Dicts.IndexOf` and membership), while `new Set`, `indexOf` and `includes` compare objects and arrays by reference; two equal-looking object keys are one key here.
- Subclasses overriding `resource_event` or adding handlers are not modelled.
- Pipeline.Sync.constructor: its throws for a `pre` or `post` that is not an array (core.js:187-192) are excluded by typing; both are sequences of processors.
- Resources.Resource.constructor: its throws for a `name` or `typename` that is not a string (core.js:9-11, 17-19) are excluded by typing; both are `string` parameters. The one place a non-string name can arise, a dictionary key, is modelled (`Dicts.NameNotString`).
- JsValues.ToString: `String(f)` of a function is its source text, which the model does not carry; a function converts to the fixed text "function", and `format` shows that text.
- Dicts.LengthBelowOne: a function key's `length` is its declared arity, which the model does not carry; it is taken as 0. An object key whose `length` field is not a number is compared as if it had none, where JavaScript would convert the field to a number.
- Dicts.Dict.Add: when the value is undefined or a function, the JSON copy throws a `SyntaxError` before `push` is reached; the model gives that error a fixed message.

## Findings

| source | as written | input that shows it | evidently intended | confidence | as-written member | corrected member |
|---|---|---|---|---|---|---|
| core.js:148-150 | the collected `once` positions are spliced out lowest first, so each splice shifts the positions still to come | subscriptions `[once a, once b, plain c]`: position 0 is spliced, then position 1, which now holds `c`; `b` survives and `c` is lost | every `once` entry removed and every other entry kept in order (splice from the highest position down) | not executed | Resources.AscendingSpliceRemovesWrongEntry | Resources.SpliceFromTopDropsOnce |
| connectionbasedsync.js:28 | `opened` calls `cancelTimeout`, which is not defined, whenever a reconnect handle is in the slot | `closed()`, then `send(...)`, then `opened()`: a ReferenceError after `connected` is set; the flush is skipped until the next `send` or the next successful open, and the reconnect timer still fires | cancel the pending timer (`clearTimeout`) and flush the queue | not executed | ConnectionSync.ConnectionBasedSync.OpenedAsWritten | ConnectionSync.ConnectionBasedSync.Opened |
