/** JavaScript values as far as the middleware observes them: the fields of an
    action, parsed JSON payloads, and the handful of built-in string operations
    the middleware relies on (`String(v)`, `===`, `String.prototype.includes`).
 */
module Values {

  datatype Option<+T> = None | Some(value: T)

  /** A JavaScript value. Numbers are carried by their canonical text (what
      `Number.prototype.toString` yields), objects and arrays by reference. */
  datatype JsVal =
    | Undefined
    | Null
    | Bool(b: bool)
    | Num(repr: string)
    | Str(s: string)
    | Obj(id: nat)

  /** A parsed JSON document. */
  datatype Json =
    | JNull
    | JBool(flag: bool)
    | JNum(digits: string)
    | JStr(text: string)
    | JArr(items: seq<Json>)
    | JObj(members: seq<(string, Json)>)

  /** The value `{}`. */
  const EmptyObject: Json := JObj([])

  /** `String(v)`, which is also what a template literal `${v}` and a property
      key lookup `o[v]` turn `v` into. Objects are plain objects. */
  function ToText(v: JsVal): string
  {
    match v
    case Undefined => "undefined"
    case Null => "null"
    case Bool(b) => if b then "true" else "false"
    case Num(repr) => repr
    case Str(s) => s
    case Obj(_) => "[object Object]"
  }

  /** `a === b`: structural on primitives, by reference on objects, and never
      true for NaN. */
  predicate StrictEquals(a: JsVal, b: JsVal)
  {
    a == b && a != Num("NaN")
  }

  /** `t` occurs in `s` starting at index `i`. */
  ghost predicate OccursAt(s: string, t: string, i: int)
  {
    0 <= i && i + |t| <= |s| && s[i..i + |t|] == t
  }

  /** `s.includes(t)`, scanning left to right. */
  function Includes(s: string, t: string): (r: bool)
    ensures r <==> exists i :: OccursAt(s, t, i)
    decreases |s|
  {
    if |t| > |s| then
      false
    else if s[..|t|] == t then
      assert OccursAt(s, t, 0);
      true
    else
      var r := Includes(s[1..], t);
      assert forall i :: OccursAt(s[1..], t, i) <==> OccursAt(s, t, i + 1) by {
        forall i
          ensures OccursAt(s[1..], t, i) <==> OccursAt(s, t, i + 1)
        {
          if 0 <= i && i + |t| <= |s[1..]| {
            assert s[1..][i..i + |t|] == s[i + 1..i + 1 + |t|];
          }
        }
      }
      assert !OccursAt(s, t, 0);
      assert (exists i :: OccursAt(s, t, i)) ==> exists j :: OccursAt(s[1..], t, j) by {
        if exists i :: OccursAt(s, t, i) {
          var i :| OccursAt(s, t, i);
          assert OccursAt(s[1..], t, i - 1);
        }
      }
      r
  }
}
