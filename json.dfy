/** JSON values as they appear in request and response bodies, and the two library encoders. */
module Json {
  import opened Wrappers

  /** A decoded JSON value; an object keeps its keys in insertion order, as a Python dict does. */
  datatype Json =
    | Null
    | Bool(b: bool)
    | Num(n: real)
    | Str(s: string)
    | Arr(items: seq<Json>)
    | Obj(fields: seq<(string, Json)>)

  /**
   * The value stored under `key` in an object's fields. A Python dict holds each key once, so
   * the fields of a modelled object are meant to have distinct keys; `Get` looks at the first.
   */
  function Get(fields: seq<(string, Json)>, key: string): (r: Option<Json>)
    ensures r.Some? <==> exists k :: 0 <= k < |fields| && fields[k].0 == key
  {
    if |fields| == 0 then None
    else if fields[0].0 == key then Some(fields[0].1)
    else Get(fields[1..], key)
  }

  /** The first field named `key` is the one `Get` finds. */
  lemma {:induction false} GetFirst(fields: seq<(string, Json)>, key: string, k: nat)
    requires k < |fields| && fields[k].0 == key
    requires forall j :: 0 <= j < k ==> fields[j].0 != key
    ensures Get(fields, key) == Some(fields[k].1)
  {
    if k > 0 {
      GetFirst(fields[1..], key, k - 1);
    }
  }

  /**
   * The library serialisers the shim calls, left uninterpreted: `dumps` is `json.dumps`
   * and `toStr` is Python's `str()` applied to a value that is not a string.
   */
  datatype Codec = Codec(dumps: Json -> string, toStr: Json -> string)

  /** Python's `str(v)`: a string stays as it is; anything else goes through `toStr`. */
  function PyStr(v: Json, codec: Codec): string
  {
    if v.Str? then v.s else codec.toStr(v)
  }
}
