/**
 * JSON values as the two clients receive them from the backend, with the
 * conversions to text and the truthiness tests of Python and JavaScript.
 * Object members keep their insertion order, as Python dicts and (for
 * non-integer keys) JavaScript objects do.
 */
module Json {
  import opened Common

  datatype Json =
    | JNull
    | JBool(b: bool)
    | JInt(i: int)
    | JFloat(f: real)
    | JStr(s: string)
    | JArr(items: seq<Json>)
    | JObj(members: seq<(string, Json)>)

  /** `data.get(key)` / `data[key]`: the first member with that key. */
  function Get(members: seq<(string, Json)>, key: string): (r: Option<Json>)
    ensures r.Some? <==> exists i :: 0 <= i < |members| && members[i].0 == key
    ensures r.Some? ==> (key, r.value) in members
  {
    if members == [] then None
    else if members[0].0 == key then Some(members[0].1)
    else Get(members[1..], key)
  }

  predicate HasKey(members: seq<(string, Json)>, key: string)
  {
    exists i :: 0 <= i < |members| && members[i].0 == key
  }

  function Keys(members: seq<(string, Json)>): (r: seq<string>)
    ensures |r| == |members|
    ensures forall i :: 0 <= i < |r| ==> r[i] == members[i].0
  {
    if members == [] then [] else [members[0].0] + Keys(members[1..])
  }

  /** Python's `bool(v)` on a decoded JSON value. */
  predicate PyTruthy(v: Json)
  {
    match v
    case JNull => false
    case JBool(b) => b
    case JInt(i) => i != 0
    case JFloat(f) => f != 0.0
    case JStr(s) => s != []
    case JArr(a) => a != []
    case JObj(m) => m != []
  }

  /** JavaScript's `!!v` on a parsed JSON value: containers are always truthy. */
  predicate JsTruthy(v: Json)
  {
    match v
    case JNull => false
    case JBool(b) => b
    case JInt(i) => i != 0
    case JFloat(f) => f != 0.0
    case JStr(s) => s != []
    case JArr(_) => true
    case JObj(_) => true
  }

  /**
   * Python's `str(v)`. A string is itself and the scalars print as Python
   * prints them; floats, lists and dicts are rendered by `repr`, which stands
   * for Python's float and container printing.
   */
  function PyStr(v: Json, repr: Json -> string): (r: string)
    ensures v.JStr? ==> r == v.s
  {
    match v
    case JNull => "None"
    case JBool(b) => if b then "True" else "False"
    case JInt(i) => IntToString(i)
    case JStr(s) => s
    case _ => repr(v)
  }

  /**
   * JavaScript's `String(v)`. Arrays print their elements joined by `,`
   * with `null` as the empty string; objects print as `[object Object]`;
   * `num` stands for JavaScript's number printing of non-integers.
   */
  function JsStr(v: Json, num: real -> string): (r: string)
    ensures v.JStr? ==> r == v.s
    ensures v.JObj? ==> r == "[object Object]"
    decreases v, 1
  {
    match v
    case JNull => "null"
    case JBool(b) => if b then "true" else "false"
    case JInt(i) => IntToString(i)
    case JFloat(f) => num(f)
    case JStr(s) => s
    case JArr(a) => JsJoin(a, ",", num)
    case JObj(_) => "[object Object]"
  }

  /** JavaScript's `a.join(sep)`: `null` elements print as the empty string. */
  function JsJoin(a: seq<Json>, sep: string, num: real -> string): (r: string)
    decreases a, 0
  {
    if a == [] then ""
    else
      var first := if a[0].JNull? then "" else JsStr(a[0], num);
      if |a| == 1 then first else first + sep + JsJoin(a[1..], sep, num)
  }
}
