/** `jawn`: the middleware proper. It reads a snapshot of the api state,
    passes foreign actions on untouched, and for the three `API_*` actions
    extends the path with the query string, then serves from cache, fetches,
    or forwards an invalidation. */
module Middleware {
  import opened Values
  import opened QueryString
  import opened Actions
  import opened Effects
  import opened Request

  /** A cached response: the method it was fetched with and its JSON. */
  datatype Entry = Entry(httpMethod: JsVal, json: Json)

  /** `getState().apiReducer` at the moment the action arrives. */
  datatype Snapshot = Snapshot(paths: map<string, Entry>, isFetching: map<string, bool>)

  /** What the middleware returns synchronously. */
  datatype Return =
    | FromNext(value: JsVal)  // `return next(action)`
    | NoValue                 // the invalidation branches return undefined
    | Cached(json: Json)      // `Promise.resolve(paths[path].json)`
    | Fetching(call: Call)    // the promise returned by `request(...)`

  datatype Handled = Handled(events: seq<Event>, result: Return)

  /** What the caller finally observes once any fetch has settled. */
  datatype Completion =
    | Returned(value: JsVal)
    | Nothing
    | Promise(settled: Settled)

  datatype Run = Run(events: seq<Event>, completion: Completion)

  /** The path after the query string has been appended. */
  function FullPath(a: Action): (p: string)
    ensures a.query.None? ==> p == a.path
    ensures a.query.Some? ==> p == a.path + Expected(a.query.value)
  {
    match a.query
    case None => a.path
    case Some(q) => BuildIsExpected(q); a.path + Build(q)
  }

  /** `isFetching[name]` is truthy; the key is `name` coerced to a string. */
  predicate InFlight(s: Snapshot, name: JsVal)
  {
    ToText(name) in s.isFetching && s.isFetching[ToText(name)]
  }

  /** The cache test of an `API_REQUEST`. */
  function ServedFromCache(s: Snapshot, path: string, name: JsVal, httpMethod: JsVal): (hit: bool)
    ensures hit ==> path in s.paths && s.paths[path].httpMethod == httpMethod
    ensures hit ==> httpMethod != Str("POST") && httpMethod != Str("PUT")
    ensures InFlight(s, name) ==> !hit
  {
    && path in s.paths
    && !InFlight(s, name)
    && !StrictEquals(httpMethod, Str("POST"))
    && !StrictEquals(httpMethod, Str("PUT"))
    && StrictEquals(s.paths[path].httpMethod, httpMethod)
  }

  /** The synchronous part of the middleware, for one action. `nextResult`
      is whatever `next` returns. */
  function Handle(a: Action, s: Snapshot, nextResult: JsVal): (h: Handled)
    ensures !IsValidApiAction(a.kind) ==> h == Handled([PassOn(a)], FromNext(nextResult))
    ensures a.kind == Str(API_REQUEST) ==>
              (h.result.Cached? <==>
                 && FullPath(a) in s.paths
                 && !InFlight(s, a.name)
                 && a.httpMethod != Str("POST") && a.httpMethod != Str("PUT")
                 && s.paths[FullPath(a)].httpMethod == a.httpMethod
                 && a.httpMethod != Num("NaN"))
    ensures h.result.Cached? ==>
              FullPath(a) in s.paths && h.events == [] && h.result.json == s.paths[FullPath(a)].json
    ensures a.kind == Str(API_REQUEST) && !h.result.Cached? ==>
              && h.events == [Dispatch(Request(a.body, a.httpMethod, FullPath(a), a.name))]
              && h.result == Fetching(Call(FullPath(a), a.body, a.httpMethod, a.contentType, a.name))
    ensures a.kind == Str(API_INVALIDATE) ==> h == Handled([Abort, Next(Invalidate(FullPath(a)))], NoValue)
    ensures a.kind == Str(API_INVALIDATE_PATH) ==> h == Handled([Next(InvalidatePath(FullPath(a)))], NoValue)
    ensures Fetched(h.events) == []
  {
    if !IsValidApiAction(a.kind) then
      Handled([PassOn(a)], FromNext(nextResult))
    else
      var path := FullPath(a);
      if StrictEquals(a.kind, Str(API_REQUEST)) then
        if ServedFromCache(s, path, a.name, a.httpMethod) then
          Handled([], Cached(s.paths[path].json))
        else
          Handled([Dispatch(Request(a.body, a.httpMethod, path, a.name))],
                  Fetching(Call(path, a.body, a.httpMethod, a.contentType, a.name)))
      else if StrictEquals(a.kind, Str(API_INVALIDATE)) then
        ForwardingTrace(Invalidate(path));
        Handled([Abort, Next(Invalidate(path))], NoValue)
      else
        ForwardingTrace(InvalidatePath(path));
        Handled([Next(InvalidatePath(path))], NoValue)
  }

  /** Forwarding to `next` and aborting are neither dispatches nor fetches. */
  lemma ForwardingTrace(n: Notice)
    ensures Dispatched([Next(n)]) == [] && Fetched([Next(n)]) == []
    ensures Dispatched([Abort, Next(n)]) == [] && Fetched([Abort, Next(n)]) == []
  {
  }

  /** The middleware followed by the fetch it may start, settled by `o`. */
  function Jawn(a: Action, s: Snapshot, nextResult: JsVal, o: Outcome): (r: Run)
    ensures |Fetched(r.events)| <= 1
    ensures Fetched(r.events) != [] ==> Fetched(r.events) == [FullPath(a)] && a.kind == Str(API_REQUEST)
  {
    var h := Handle(a, s, nextResult);
    match h.result
    case FromNext(v) => Run(h.events, Returned(v))
    case NoValue => Run(h.events, Nothing)
    case Cached(json) => Run(h.events, Promise(Fulfilled(Data(json))))
    case Fetching(call) =>
      var x := Execute(call, o);
      ProjectionsAppend(h.events, x.events);
      Run(h.events + x.events, Promise(x.settled))
  }

  // ---------------------------------------------------------------------------
  // Properties of the whole middleware.

  /** A foreign action reaches `next` exactly as received, nothing is
      dispatched or fetched, and `next`'s result is returned, whatever the
      cache holds and whatever the network would do. */
  lemma ForeignActionPassesThrough(a: Action, s: Snapshot, v: JsVal, o: Outcome)
    requires !IsValidApiAction(a.kind)
    ensures Jawn(a, s, v, o) == Run([PassOn(a)], Returned(v))
  {
  }

  /** An `API_REQUEST` is fetched exactly when the cache test fails; a hit
      touches neither `dispatch` nor the network and resolves to the cached
      JSON. */
  lemma FetchExactlyOnMiss(a: Action, s: Snapshot, v: JsVal, o: Outcome)
    requires a.kind == Str(API_REQUEST)
    ensures var r := Jawn(a, s, v, o);
            (Fetched(r.events) == [] <==> ServedFromCache(s, FullPath(a), a.name, a.httpMethod))
    ensures var r := Jawn(a, s, v, o);
            ServedFromCache(s, FullPath(a), a.name, a.httpMethod) ==>
              r == Run([], Promise(Fulfilled(Data(s.paths[FullPath(a)].json))))
  {
  }

  /** `POST` and `PUT` are never answered from the cache, even when an entry
      with the same path and method exists. */
  lemma MutatingMethodsAlwaysFetch(a: Action, s: Snapshot, v: JsVal, o: Outcome)
    requires a.kind == Str(API_REQUEST)
    requires a.httpMethod == Str("POST") || a.httpMethod == Str("PUT")
    ensures Fetched(Jawn(a, s, v, o).events) == [FullPath(a)]
  {
  }

  /** While a request with the same name is in flight the cache is bypassed. */
  lemma InFlightBypassesCache(a: Action, s: Snapshot, v: JsVal, o: Outcome)
    requires a.kind == Str(API_REQUEST)
    requires InFlight(s, a.name)
    ensures Fetched(Jawn(a, s, v, o).events) == [FullPath(a)]
  {
  }

  /** On a miss the store hears REQUEST first, then exactly one of RECEIVE
      (carrying the JSON the promise resolves to) or ERROR (when it rejects),
      or nothing more for the logout quirk; all carry the query-extended path. */
  lemma MissNotifiesInOrder(a: Action, s: Snapshot, v: JsVal, o: Outcome)
    requires a.kind == Str(API_REQUEST)
    requires !ServedFromCache(s, FullPath(a), a.name, a.httpMethod)
    ensures var r := Jawn(a, s, v, o);
            var p := FullPath(a);
            var started := Request(a.body, a.httpMethod, p, a.name);
            && r.completion.Promise?
            && (r.completion.settled.Rejected? <==> Dispatched(r.events) == [started, Error(p, a.name)])
            && (r.completion.settled.Fulfilled? && r.completion.settled.value.Data? ==>
                  Dispatched(r.events) == [started, Receive(p, r.completion.settled.value.json, a.name)])
            && (r.completion.settled.Fulfilled? && r.completion.settled.value.Raw? <==>
                  Dispatched(r.events) == [started])
  {
    var h := Handle(a, s, v);
    var x := Execute(h.result.call, o);
    ProjectionsAppend(h.events, x.events);
    var started := Request(a.body, a.httpMethod, FullPath(a), a.name);
    assert Dispatched(h.events) == [started];
    var d := Dispatched(x.events);
    assert ([started] + d)[1..] == d;
  }

  /** `API_INVALIDATE` stops all browser activity and then forwards INVALIDATE;
      `API_INVALIDATE_PATH` forwards INVALIDATE_PATH and never stops anything.
      Neither dispatches, fetches, or depends on the cache. */
  lemma InvalidationsForwardOnlyThePath(a: Action, s: Snapshot, v: JsVal, o: Outcome)
    requires a.kind == Str(API_INVALIDATE) || a.kind == Str(API_INVALIDATE_PATH)
    ensures var r := Jawn(a, s, v, o);
            && r.completion == Nothing
            && Dispatched(r.events) == [] && Fetched(r.events) == []
            && (a.kind == Str(API_INVALIDATE) ==> r.events == [Abort, Next(Invalidate(FullPath(a)))])
            && (a.kind == Str(API_INVALIDATE_PATH) ==> r.events == [Next(InvalidatePath(FullPath(a)))])
            && (a.kind == Str(API_INVALIDATE_PATH) ==> Abort !in r.events)
  {
    ForwardingTrace(Invalidate(FullPath(a)));
    ForwardingTrace(InvalidatePath(FullPath(a)));
  }

  // ---------------------------------------------------------------------------
  // Worked examples.

  /** A GET whose path is cached and not in flight resolves to the cached
      JSON with no notice; the same request as a POST starts a fetch. */
  lemma ExampleCachedGetAndPost(o: Outcome)
    ensures var cached := JObj([("x", JNum("1"))]);
            var s := Snapshot(map["/a" := Entry(Str("GET"), cached)], map["n" := false]);
            var get := Action(Str(API_REQUEST), "/a", Str("GET"), Undefined, Undefined, Str("n"), None);
            var post := get.(httpMethod := Str("POST"));
            && Jawn(get, s, Undefined, o) == Run([], Promise(Fulfilled(Data(cached))))
            && Dispatched(Jawn(post, s, Undefined, o).events)[0] == Request(Undefined, Str("POST"), "/a", Str("n"))
  {
  }

  /** An invalidate-all with path `/b` aborts and forwards `{type, path}`. */
  lemma ExampleInvalidateAll(s: Snapshot, o: Outcome)
    ensures var a := Action(Str(API_INVALIDATE), "/b", Undefined, Undefined, Undefined, Undefined, None);
            Jawn(a, s, Undefined, o) == Run([Abort, Next(Invalidate("/b"))], Nothing)
  {
  }
}
