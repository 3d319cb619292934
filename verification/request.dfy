/** `request`: build the fetch options, perform the call, classify the
    response and notify the store of the outcome. The network result is an
    input; the promise `request` returns is the `Settled` value. */
module Request {
  import opened Values
  import opened Actions
  import opened Effects

  const JSON_CONTENT_TYPE := "application/json"
  const FORM_CONTENT_TYPE := "application/x-www-form-urlencoded"
  const SAME_ORIGIN := "same-origin"
  /** Paths containing this are answered with the raw response. */
  const LOGOUT_MARKER := "uilogout"

  /** The arguments of `request(path, {body, method}, contentType, name)`. */
  datatype Call = Call(path: string, body: JsVal, httpMethod: JsVal, contentType: JsVal, name: JsVal)

  /** A response body as `text()` / `json()` see it. */
  datatype Body = Empty | JsonText(json: Json) | Unparsable

  datatype Response = Response(status: int, body: Body)

  /** What `await fetch(...)` produced. */
  datatype Outcome = NetworkFailure(reason: string) | Responded(response: Response)

  /** What `request` throws. */
  datatype Thrown =
    | NetworkError(reason: string)  // the rejection of fetch, re-thrown as is
    | SyntaxError                   // JSON.parse or response.json() failed
    | ErrorBody(json: Json)         // the parsed body of a non-2xx response

  /** What `request` resolves to. */
  datatype Value = Data(json: Json) | Raw(response: Response)

  datatype Settled = Fulfilled(value: Value) | Rejected(error: Thrown)

  datatype Executed = Executed(events: seq<Event>, settled: Settled)

  predicate IsSuccess(status: int)
  {
    200 <= status < 300
  }

  /** The options passed to `fetch`: the caller's body and method, same-origin
      credentials, and a `Content-Type` header chosen by `contentType`. */
  function BuildInit(c: Call): (init: Init)
    ensures init.body == c.body && init.httpMethod == c.httpMethod
    ensures init.credentials == SAME_ORIGIN
    ensures init.contentTypeHeader.None? <==> StrictEquals(c.contentType, Bool(false))
    ensures init.contentTypeHeader == Some(FORM_CONTENT_TYPE) <==> StrictEquals(c.contentType, Str(FORM_CONTENT_TYPE))
    ensures init.contentTypeHeader.Some? ==> init.contentTypeHeader.value in {JSON_CONTENT_TYPE, FORM_CONTENT_TYPE}
  {
    var header :=
      if StrictEquals(c.contentType, Bool(false)) then None
      else if StrictEquals(c.contentType, Str(FORM_CONTENT_TYPE)) then Some(FORM_CONTENT_TYPE)
      else Some(JSON_CONTENT_TYPE);
    Init(c.body, c.httpMethod, SAME_ORIGIN, header)
  }

  /** The body of the `try`: how the awaited fetch outcome settles, before
      the `catch` adds its notice. */
  function Classify(path: string, o: Outcome): (s: Settled)
    ensures s.Fulfilled? ==> o.Responded? && IsSuccess(o.response.status)
    ensures s.Fulfilled? && s.value.Raw? <==> o.Responded? && IsSuccess(o.response.status) && Includes(path, LOGOUT_MARKER)
    ensures s.Fulfilled? && s.value.Raw? ==> s.value.response == o.response
    ensures o.NetworkFailure? ==> s == Rejected(NetworkError(o.reason))
    ensures o.Responded? && !IsSuccess(o.response.status) ==>
              s == (if o.response.body.JsonText? then Rejected(ErrorBody(o.response.body.json)) else Rejected(SyntaxError))
    ensures o.Responded? && IsSuccess(o.response.status) && !Includes(path, LOGOUT_MARKER) ==>
              s == (match o.response.body
                    case Empty => Fulfilled(Data(EmptyObject))
                    case JsonText(j) => Fulfilled(Data(j))
                    case Unparsable => Rejected(SyntaxError))
  {
    match o
    case NetworkFailure(reason) => Rejected(NetworkError(reason))
    case Responded(response) =>
      if IsSuccess(response.status) then
        if Includes(path, LOGOUT_MARKER) then Fulfilled(Raw(response))
        else
          match response.body
          case Empty => Fulfilled(Data(EmptyObject))
          case JsonText(j) => Fulfilled(Data(j))
          case Unparsable => Rejected(SyntaxError)
      else
        // every non-2xx status is handled the same way: parse and throw
        match response.body
        case JsonText(j) => Rejected(ErrorBody(j))
        case _ => Rejected(SyntaxError)
  }

  /** `request`: one fetch, then exactly one RECEIVE on a JSON success,
      exactly one ERROR on any failure, and nothing for the logout quirk. */
  function Execute(c: Call, o: Outcome): (x: Executed)
    ensures |x.events| >= 1 && x.events[0] == Fetch(c.path, BuildInit(c))
    ensures Fetched(x.events) == [c.path]
    ensures forall i :: 1 <= i < |x.events| ==> x.events[i].Dispatch?
    ensures x.settled.Rejected? <==> Dispatched(x.events) == [Error(c.path, c.name)]
    ensures x.settled.Fulfilled? && x.settled.value.Data? ==>
              Dispatched(x.events) == [Receive(c.path, x.settled.value.json, c.name)]
    ensures x.settled.Fulfilled? && x.settled.value.Raw? <==> Dispatched(x.events) == []
    ensures x.settled == Classify(c.path, o)
  {
    var fetch := Fetch(c.path, BuildInit(c));
    var settled := Classify(c.path, o);
    var events :=
      match settled
      case Fulfilled(Data(json)) => [fetch, Dispatch(Receive(c.path, json, c.name))]
      case Fulfilled(Raw(_)) => [fetch]
      case Rejected(_) => [fetch, Dispatch(Error(c.path, c.name))];
    assert [fetch][1..] == [];
    assert Dispatched([fetch]) == [] && Fetched([fetch]) == [c.path];
    assert |events| == 2 ==> events[1..] == [events[1]] && Fetched([events[1]]) == [];
    assert Dispatched(events) ==
      match settled
      case Fulfilled(Data(json)) => [Receive(c.path, json, c.name)]
      case Fulfilled(Raw(_)) => []
      case Rejected(_) => [Error(c.path, c.name)];
    Executed(events, settled)
  }

  /** Every non-2xx status settles and notifies identically: the status code
      itself plays no part beyond being outside [200, 300). */
  lemma FailureIgnoresStatusCode(c: Call, s1: int, s2: int, b: Body)
    requires !IsSuccess(s1) && !IsSuccess(s2)
    ensures Execute(c, Responded(Response(s1, b))) == Execute(c, Responded(Response(s2, b)))
  {
  }

  /** Every failure — a network error, a non-2xx status, a body that does not
      parse — notifies ERROR exactly once and never RECEIVE. */
  lemma FailureNotifiesErrorOnce(c: Call, o: Outcome)
    requires o.NetworkFailure?
          || (o.Responded? && !IsSuccess(o.response.status))
          || (o.Responded? && !Includes(c.path, LOGOUT_MARKER) && o.response.body.Unparsable?)
    ensures Execute(c, o).settled.Rejected?
    ensures Dispatched(Execute(c, o).events) == [Error(c.path, c.name)]
  {
  }

  /** A 403 with a JSON body rejects with that body after one ERROR; a 2xx
      with an empty body resolves to `{}` after one RECEIVE of `{}`. */
  lemma ExampleForbiddenAndEmptySuccess(j: Json)
    ensures var c := Call("/a", Undefined, Str("GET"), Undefined, Str("n"));
            var forbidden := Execute(c, Responded(Response(403, JsonText(j))));
            var empty := Execute(c, Responded(Response(204, Empty)));
            && forbidden.settled == Rejected(ErrorBody(j))
            && Dispatched(forbidden.events) == [Error("/a", Str("n"))]
            && empty.settled == Fulfilled(Data(EmptyObject))
            && Dispatched(empty.events) == [Receive("/a", EmptyObject, Str("n"))]
  {
  }
}
