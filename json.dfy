/** The JSON-shaped dictionaries that the service hands back to its callers. */
module Json {

  /** One JSON value; `Null` is Python's `None` once serialised. */
  datatype Value =
    | Null
    | Bool(b: bool)
    | Int(i: int)
    | Real(r: real)
    | Str(s: string)
    | Arr(items: seq<Value>)
    | Obj(fields: map<string, Value>)

  /** A dictionary with every `None`-valued entry removed (`{k: v for k, v in d.items() if v is not None}`). */
  function DropNone(d: map<string, Value>): (r: map<string, Value>)
    ensures forall k :: k in r <==> k in d && d[k] != Null
    ensures forall k :: k in r ==> r[k] == d[k]
  {
    map k | k in d && d[k] != Null :: d[k]
  }
}
