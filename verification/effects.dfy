/** The observable effects of the middleware, as a trace: calls to `next`,
    calls to `dispatch`, the browser-wide `window.stop()`, and `fetch`. */
module Effects {
  import opened Values
  import opened Actions

  /** The options object handed to `fetch`. `contentTypeHeader` is `None`
      when the `Content-Type` header has been deleted. */
  datatype Init = Init(
    body: JsVal,
    httpMethod: JsVal,
    credentials: string,
    contentTypeHeader: Option<string>)

  datatype Event =
    | PassOn(action: Action)          // next(action), the action as received
    | Next(forwarded: Notice)         // next({type, path})
    | Dispatch(notice: Notice)        // dispatch(notice)
    | Abort                           // window.stop()
    | Fetch(url: string, init: Init)  // fetch(url, init)

  /** The notices handed to `dispatch`, in order. */
  function Dispatched(es: seq<Event>): seq<Notice>
  {
    if |es| == 0 then []
    else (if es[0].Dispatch? then [es[0].notice] else []) + Dispatched(es[1..])
  }

  /** The urls handed to `fetch`, in order. */
  function Fetched(es: seq<Event>): seq<string>
  {
    if |es| == 0 then []
    else (if es[0].Fetch? then [es[0].url] else []) + Fetched(es[1..])
  }

  /** Both projections of a trace distribute over concatenation. */
  lemma {:induction false} ProjectionsAppend(a: seq<Event>, b: seq<Event>)
    ensures Dispatched(a + b) == Dispatched(a) + Dispatched(b)
    ensures Fetched(a + b) == Fetched(a) + Fetched(b)
  {
    if |a| == 0 {
      assert a + b == b;
    } else {
      assert (a + b)[0] == a[0];
      assert (a + b)[1..] == a[1..] + b;
      ProjectionsAppend(a[1..], b);
    }
  }
}
