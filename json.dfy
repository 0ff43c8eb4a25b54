/** JSON values as the tool bridge sees them. An object keeps its keys in
    insertion order (a Python dict does), so `list(d.keys())` is `keys`. */
module Json {

  datatype Value =
    | Null
    | Bool(b: bool)
    | Num(n: int)
    | Str(s: string)
    | Array(items: seq<Value>)
    | Object(keys: seq<string>, fields: map<string, Value>)

  /** What a Python dict guarantees: each key once, and the listed keys are
      exactly the keys that have a value. */
  ghost predicate WellFormedObject(v: Value)
  {
    && v.Object?
    && (forall i, j :: 0 <= i < j < |v.keys| ==> v.keys[i] != v.keys[j])
    && v.fields.Keys == set k | k in v.keys
  }

  /** A tool's input schema: the top-level JSON-schema object, as a map from
      keyword to value. */
  type Schema = map<string, Value>

  /** `{}` */
  const EmptyObject: Value := Object([], map[])

  /** `["k1", "k2", ...]`: the JSON array of the given keys, in order. */
  function KeyArray(keys: seq<string>): (r: Value)
    ensures r.Array? && |r.items| == |keys|
    ensures forall i :: 0 <= i < |keys| ==> r.items[i] == Str(keys[i])
  {
    Array(seq(|keys|, i requires 0 <= i < |keys| => Str(keys[i])))
  }
}
