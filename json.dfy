/** JSON values as they travel between the browser, the Flask server and the
    platform API, with the two truthiness rules the code relies on. */
module Json {

  import Lists

  /** A decoded JSON value. Numbers are integers; objects are unordered. */
  datatype Json =
    | Null
    | Bool(b: bool)
    | Num(n: int)
    | Str(s: string)
    | Arr(items: seq<Json>)
    | Obj(fields: map<string, Json>)

  /** Python's `bool(v)` on a decoded value: empty containers are false. */
  predicate PyTruthy(j: Json) {
    match j
    case Null => false
    case Bool(b) => b
    case Num(n) => n != 0
    case Str(s) => s != ""
    case Arr(a) => a != []
    case Obj(m) => m != map[]
  }

  /** JavaScript's `Boolean(v)`: every array and object is true. */
  predicate JsTruthy(j: Json) {
    match j
    case Null => false
    case Bool(b) => b
    case Num(n) => n != 0
    case Str(s) => s != ""
    case Arr(_) => true
    case Obj(_) => true
  }

  /** Python's `d.get(key, default)` on a dict. */
  function GetOr(m: map<string, Json>, key: string, default: Json): Json {
    if key in m then m[key] else default
  }

  /** Python's `d.get(key)`: a missing key reads as None. */
  function GetField(m: map<string, Json>, key: string): Json {
    GetOr(m, key, Null)
  }

  /** The one-character strings `for u in s` visits when `s` is a string. */
  function Characters(s: string): (r: seq<Json>)
    ensures |r| == |s| && forall k :: 0 <= k < |s| ==> r[k] == Str([s[k]])
  {
    seq(|s|, k requires 0 <= k < |s| => Str([s[k]]))
  }

  /** The keys `for u in d` visits when `d` is an object, in the order
      `keyOrder` they were decoded in (which the `Json` value itself does
      not record). */
  function KeyStrings(keyOrder: seq<string>): (r: seq<Json>)
    ensures |r| == |keyOrder| && forall k :: 0 <= k < |keyOrder| ==> r[k] == Str(keyOrder[k])
  {
    seq(|keyOrder|, k requires 0 <= k < |keyOrder| => Str(keyOrder[k]))
  }

  /** `keyOrder` lists the keys of `m`, each once. */
  predicate IsKeyOrder(keyOrder: seq<string>, m: map<string, Json>) {
    Lists.NoDup(keyOrder) && (forall i :: 0 <= i < |keyOrder| ==> keyOrder[i] in m)
      && forall k :: k in m ==> k in keyOrder
  }
}
