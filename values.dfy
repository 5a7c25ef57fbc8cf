/** Values shared by every part of the agent: optional values, the outcome of a
    Python call that may raise, and the JSON-like values the tools return. */
module Values {

  datatype Option<+T> = None | Some(value: T)

  /** The outcome of a Python call: it either returns a value or raises an
      exception, described by its text. */
  datatype Outcome<+T> = Returned(value: T) | Raised(exception: string)

  /** Python values built from `dict`, `list`, `str`, `int`, `bool` and `None`,
      i.e. what `json.loads` produces and what the tools put in their result
      dictionaries. Dictionaries keep their insertion order. */
  datatype Json =
    | JNull
    | JBool(b: bool)
    | JInt(i: int)
    | JStr(s: string)
    | JList(items: seq<Json>)
    | JObj(fields: seq<(string, Json)>)

  /** Python truthiness of a value (`if x:` / `x or y`). */
  predicate Truthy(j: Json) {
    match j
    case JNull => false
    case JBool(b) => b
    case JInt(i) => i != 0
    case JStr(s) => s != ""
    case JList(items) => items != []
    case JObj(fields) => fields != []
  }

  predicate HasKey(fields: seq<(string, Json)>, key: string) {
    exists k :: 0 <= k < |fields| && fields[k].0 == key
  }

  /** `d.get(key, default)`: the value under the first entry with that key. */
  function GetOr(fields: seq<(string, Json)>, key: string, default: Json): (r: Json)
    ensures !HasKey(fields, key) ==> r == default
    ensures HasKey(fields, key) ==> exists k :: 0 <= k < |fields| && fields[k] == (key, r)
  {
    if fields == [] then default
    else if fields[0].0 == key then fields[0].1
    else
      assert HasKey(fields, key) ==> HasKey(fields[1..], key) by {
        if HasKey(fields, key) {
          var k :| 0 <= k < |fields| && fields[k].0 == key;
          assert k > 0 && fields[1..][k - 1].0 == key;
        }
      }
      var r := GetOr(fields[1..], key, default);
      assert HasKey(fields[1..], key) ==> exists k :: 0 <= k < |fields| && fields[k] == (key, r) by {
        if HasKey(fields[1..], key) {
          var k :| 0 <= k < |fields[1..]| && fields[1..][k] == (key, r);
          assert fields[k + 1] == (key, r);
        }
      }
      r
  }

  /** `d.get(key)`: `None` when absent. */
  function Get(fields: seq<(string, Json)>, key: string): Json {
    GetOr(fields, key, JNull)
  }

  /** Name of the Python type of a value, as it appears in exception texts. */
  function TypeName(j: Json): string {
    match j
    case JNull => "NoneType"
    case JBool(_) => "bool"
    case JInt(_) => "int"
    case JStr(_) => "str"
    case JList(_) => "list"
    case JObj(_) => "dict"
  }

  /** The text of the AttributeError raised by `x.attr` on a value without it. */
  function NoAttribute(j: Json, attr: string): string {
    "'" + TypeName(j) + "' object has no attribute '" + attr + "'"
  }

  /** The text of the KeyError raised by `d[key]` on a dictionary without it. */
  function KeyError(key: string): string {
    "'" + key + "'"
  }

  /** Python `a or b` on optional strings (`None` and `""` are falsy). */
  function Or(a: Option<string>, b: Option<string>): (r: Option<string>)
    ensures a.Some? && a.value != "" ==> r == a
    ensures (a.None? || a.value == "") ==> r == b
  {
    if a.Some? && a.value != "" then a else b
  }

  /** Python `x or None`: the empty string becomes `None`. */
  function OrNone(a: Option<string>): (r: Option<string>)
    ensures r.Some? <==> a.Some? && a.value != ""
    ensures r.Some? ==> r == a
  {
    if a.Some? && a.value != "" then a else None
  }

  /** Truthiness of an optional string. */
  predicate Given(a: Option<string>) {
    a.Some? && a.value != ""
  }
}
