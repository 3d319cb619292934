# redux-jawn middleware, modelled in Dafny

This project models `jawn`, a Redux middleware, and `request`, the fetch helper it calls. Both live in `src/middleware.js`.

The middleware handles three action types: `API_REQUEST`, `API_INVALIDATE` and `API_INVALIDATE_PATH`. Every other action goes to `next` unchanged. For an API action it first appends a query string built from the action's `query` object to the action's `path`. What happens next depends on the type:

- An `API_REQUEST` is answered from the api state's cache (`paths`) when all four of these hold: an entry exists for the path, no request with the same `name` is in flight, the method is neither `POST` nor `PUT`, and the entry's method equals the action's method.
- Otherwise the middleware dispatches `REQUEST` and calls `request`. `request` fetches the path and classifies the response. It then dispatches `RECEIVE` on success or `ERROR` on failure. The exception is a 2xx response on a path containing `uilogout`: `request` returns the raw response and dispatches nothing.
- The two invalidation actions forward `INVALIDATE` or `INVALIDATE_PATH` to `next`. `API_INVALIDATE` first stops all browser activity.

All effects become a trace of `Event`s:

- a call to `next` with the original action (`PassOn`);
- a call to `next` with an invalidation notice (`Next`);
- a call to `dispatch` (`Dispatch`);
- `window.stop()` (`Abort`);
- `fetch` (`Fetch`).

Three things are inputs rather than effects:

- the store's state, as a `Snapshot`;
- what `next` returns;
- what the network produces, as an `Outcome`.

Each promise becomes the value it settles to.

Modules, one per file:

- `values.dfy` (`Values`): JavaScript values, parsed JSON, `String(v)`, `===` and `String.prototype.includes`.
- `query_string.dfy` (`QueryString`): the query-string builder. It is written as the `forEach` accumulation and proved equal to an independent "filter, then join" definition.
- `actions.dfy` (`Actions`): action-type constants, the action record, `isValidApiAction` and the notices.
- `effects.dfy` (`Effects`): the options passed to `fetch`, the event trace and its projections.
- `request.dfy` (`Request`): `request`, covering the header policy, status classification and notifications.
- `middleware.dfy` (`Middleware`): `jawn` (`Handle`), plus its composition with `request` (`Jawn`) and the properties of the whole.

Three behaviours of the code worth noting:

- The raw-response `uilogout` quirk applies only inside the 2xx branch (`src/middleware.js:140-145`). A non-2xx response on such a path is parsed and rejected like any other.
- A value that is JavaScript `undefined` is not skipped by the query builder. Only `null` and the string `'undefined'` are skipped (`src/middleware.js:42`), so an `undefined` value is written as `k=undefined`.
- A non-2xx response with an empty body makes `response.json()` throw. The rejection is then a parse error, not a JSON body.

## Model

| member | source | states |
|---|---|---|
| Actions.IsValidApiAction | src/middleware.js:10-14 | an action type is handled exactly when it is one of the strings `API_REQUEST`, `API_INVALIDATE`, `API_INVALIDATE_PATH` |
| Actions.NoticesAreNotApiActions | src/middleware.js:1-8 | none of the five notice types is an API type, so a notice dispatched back through the store is passed on by the middleware |
| Values.Includes | src/middleware.js:143 | `path.includes('uilogout')` holds exactly when the marker occurs at some index of the path |
| QueryString.Step | src/middleware.js:42-49 | one iteration only appends: a skipped value leaves the string unchanged, any other keeps the string as a prefix and appends text that begins with `?` or `&`, and a string that was empty or started with `?` still starts with `?` |
| QueryString.Build | src/middleware.js:38-51 | the accumulated query string is either empty or starts with `?` |
| QueryString.BuildIsExpected | src/middleware.js:37-54 | the `forEach` accumulation equals the query string obtained by dropping skipped entries and writing `?` before the first remaining `k=v` and `&` before each later one, in key order |
| QueryString.SkippedEntryIsInvisible | src/middleware.js:41-43 | an entry whose value is `null` or `'undefined'` can be removed from any position without changing the query string |
| QueryString.EmptyExactlyWhenAllSkipped | src/middleware.js:37-54 | the query string is empty exactly when every entry is skipped, and otherwise starts with `?` |
| QueryString.ExampleQuery | src/middleware.js:40-51 | a concrete query: skipped values vanish, values are written verbatim without URL-encoding, and an `undefined` value is written as `undefined` |
| Middleware.FullPath | src/middleware.js:37-54 | with a query, the path used everywhere is the action's path followed by the described query string; without one it is the path unchanged |
| Middleware.ServedFromCache | src/middleware.js:59-65 | a cache hit implies that the entry exists with the action's method and that the method is neither POST nor PUT; a name marked as fetching never hits |
| Middleware.Handle | src/middleware.js:16-112 | foreign actions go to `next` unchanged; an `API_REQUEST` is served from cache exactly when the entry exists, the name is not fetching, the method is neither POST nor PUT and equals the entry's method; a hit emits nothing and returns the cached JSON; a miss dispatches REQUEST with the extended path and hands the same path, body, method, content type and name to `request`; the invalidations forward only the path, with an abort before INVALIDATE |
| Middleware.Jawn | src/middleware.js:56-96 | at most one fetch happens per action, only for `API_REQUEST`, and always for the query-extended path |
| Middleware.ForeignActionPassesThrough | src/middleware.js:31-33 | a foreign action yields exactly one call to `next` with the action as received, and `next`'s result, whatever the cache and network do |
| Middleware.FetchExactlyOnMiss | src/middleware.js:59-74 | an `API_REQUEST` fetches exactly when the cache test fails; on a hit there are no events and the promise resolves to the cached JSON |
| Middleware.MutatingMethodsAlwaysFetch | src/middleware.js:62-63 | POST and PUT requests always fetch, even when a matching cache entry exists |
| Middleware.InFlightBypassesCache | src/middleware.js:61 | a request whose name is marked as fetching always fetches |
| Middleware.MissNotifiesInOrder | src/middleware.js:78-96 | on a miss the dispatched notices are REQUEST then ERROR exactly when the promise rejects, REQUEST then RECEIVE carrying the resolved JSON on a JSON success, and REQUEST alone for the logout quirk |
| Middleware.InvalidationsForwardOnlyThePath | src/middleware.js:97-108 | `API_INVALIDATE` aborts and then forwards INVALIDATE with the path; `API_INVALIDATE_PATH` yields only the call forwarding INVALIDATE_PATH with the path, so it never aborts; neither dispatches, fetches or returns a value |
| Middleware.ExampleCachedGetAndPost | src/middleware.js:59-84 | a cached GET resolves to the cached JSON with no events; the same request as POST dispatches REQUEST |
| Middleware.ExampleInvalidateAll | src/middleware.js:97-103 | an invalidate-all of `/b` aborts and forwards `{type: INVALIDATE, path: '/b'}` |
| Request.BuildInit | src/middleware.js:115-129 | fetch options always carry same-origin credentials and the caller's body and method; the Content-Type header is absent exactly for `false`, form-urlencoded exactly for that string, and JSON otherwise |
| Request.Classify | src/middleware.js:135-177 | only a 2xx response fulfils; the raw response is returned exactly for 2xx on a `uilogout` path; a 2xx empty body gives `{}`; a non-2xx rejects with the parsed body or a parse error; a network error is re-thrown as is |
| Request.Execute | src/middleware.js:114-187 | one fetch with the built options, then the promise rejects exactly when a single ERROR is dispatched, a JSON success dispatches a single RECEIVE with the resolved JSON, and the logout quirk dispatches nothing |
| Request.FailureIgnoresStatusCode | src/middleware.js:158-176 | any two non-2xx statuses with the same body give the same events and the same rejection |
| Request.FailureNotifiesErrorOnce | src/middleware.js:178-186 | a network error, a non-2xx status or an unparsable body (outside the logout quirk) rejects after exactly one ERROR |
| Request.ExampleForbiddenAndEmptySuccess | src/middleware.js:140-176 | a 403 rejects with its JSON body after one ERROR; a 2xx empty body resolves to `{}` after one RECEIVE of `{}` |

## Left out

- `fetch`, `async`/`await` and promises: the network result is the `Outcome` parameter, and a promise is modelled as the value it settles to.
- Time between the synchronous part and settlement is not modelled. `Jawn` places the settlement directly after the synchronous events.
- The bodies of `JSON.parse`, `response.text()` and `response.json()` are not modelled. A body is empty, parsed JSON, or unparsable.
- `window.stop()` is recorded only as an `Abort` event, because it is a browser-wide side effect.
- The `__DEV__` `console.info` logging on a cache hit is not modelled. It is output only.
- Redux wiring is not modelled: `getState().apiReducer` is the `Snapshot` parameter, and `next`'s return value is a parameter. The model only reads `isFetching` and never updates it.
- `Object.keys` ordering rules (integer-like keys first) are not modelled. The query is already an ordered entry sequence.
- Prototype-chain lookups are not modelled. `paths` and `isFetching` are plain maps, so keys such as `constructor` find nothing.
- An action whose `path` is not a string is not modelled. `request`'s `path = ''` default is therefore never exercised.
- A truthy `query` that is not an object is not modelled.
- JavaScript numbers are carried by their canonical text. Floating-point arithmetic plays no part, and NaN is covered only by `===`.
- Objects render as `[object Object]` when written into a query string or used as a key. Arrays are not distinguished from plain objects.
- A `dispatch` that throws is not modelled. Inside the `try`, such a throw would add an ERROR after a RECEIVE.
- The final `else` of `jawn` (`src/middleware.js:109-111`) is unreachable once `isValidApiAction` has held, and `Handle` has no such branch.
