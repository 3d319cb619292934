/** The action types the middleware recognises and the notices it emits,
    together with the action record it reads. */
module Actions {
  import opened Values
  import opened QueryString

  // Notices the middleware emits.
  const ERROR := "ERROR"
  const INVALIDATE := "INVALIDATE"
  const INVALIDATE_PATH := "INVALIDATE_PATH"
  const REQUEST := "REQUEST"
  const RECEIVE := "RECEIVE"

  // Actions the middleware handles.
  const API_INVALIDATE := "API_INVALIDATE"
  const API_INVALIDATE_PATH := "API_INVALIDATE_PATH"
  const API_REQUEST := "API_REQUEST"

  /** An action as the middleware destructures it. `kind` is the action's
      `type`; `query` is `None` when the action's `query` is falsy. */
  datatype Action = Action(
    kind: JsVal,
    path: string,
    httpMethod: JsVal,
    body: JsVal,
    contentType: JsVal,
    name: JsVal,
    query: Option<Query>)

  /** `isValidApiAction`: one of the three `API_*` types, compared with `===`. */
  function IsValidApiAction(kind: JsVal): (r: bool)
    ensures r <==> kind.Str? && kind.s in {API_REQUEST, API_INVALIDATE, API_INVALIDATE_PATH}
  {
    StrictEquals(kind, Str(API_REQUEST))
    || StrictEquals(kind, Str(API_INVALIDATE))
    || StrictEquals(kind, Str(API_INVALIDATE_PATH))
  }

  /** A notice the middleware hands to `dispatch` or `next`. */
  datatype Notice =
    | Request(body: JsVal, httpMethod: JsVal, path: string, name: JsVal)
    | Receive(path: string, json: Json, name: JsVal)
    | Error(path: string, name: JsVal)
    | Invalidate(path: string)
    | InvalidatePath(path: string)
  {
    /** The notice's `type` field. */
    function Type(): string
    {
      match this
      case Request(_, _, _, _) => REQUEST
      case Receive(_, _, _) => RECEIVE
      case Error(_, _) => ERROR
      case Invalidate(_) => INVALIDATE
      case InvalidatePath(_) => INVALIDATE_PATH
    }
  }

  /** Every notice is a foreign action to the middleware itself, so a notice
      dispatched back through the store is passed on, never handled again. */
  lemma NoticesAreNotApiActions(n: Notice)
    ensures !IsValidApiAction(Str(n.Type()))
  {
  }
}
