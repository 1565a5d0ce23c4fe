/** The Python values that cross the model's boundary: the JSON-shaped payloads the
    language model returns and the dictionaries the core builds. A dict keeps its keys in
    insertion order, as Python's does, so it is a sequence of key/value pairs. */
module PyValue {
  import opened Wrappers
  import Strings

  datatype Value =
    | Null
    | Bool(b: bool)
    | Int(i: int)
    | Str(s: string)
    | List(items: seq<Value>)
    | Dict(fields: seq<(string, Value)>)

  /** Python truthiness: `None`, `False`, `0`, `""`, `[]` and `{}` are false. */
  predicate Truthy(v: Value) {
    match v
    case Null => false
    case Bool(b) => b
    case Int(i) => i != 0
    case Str(s) => s != ""
    case List(items) => items != []
    case Dict(fields) => fields != []
  }

  /** `d.get(key)`: the value stored under `key`, if any. */
  function Get(fields: seq<(string, Value)>, key: string): (r: Option<Value>)
    ensures r.Some? <==> exists i :: 0 <= i < |fields| && fields[i].0 == key
  {
    if fields == [] then None
    else if fields[0].0 == key then Some(fields[0].1)
    else Get(fields[1..], key)
  }

  function Keys(fields: seq<(string, Value)>): (ks: seq<string>)
    ensures |ks| == |fields|
    ensures forall i :: 0 <= i < |fields| ==> ks[i] == fields[i].0
  {
    if fields == [] then [] else [fields[0].0] + Keys(fields[1..])
  }

  /** `d[key] = v`: an existing key keeps its place, a new key goes last. */
  function Put(fields: seq<(string, Value)>, key: string, v: Value): seq<(string, Value)>
  {
    if fields == [] then [(key, v)]
    else if fields[0].0 == key then [(key, v)] + fields[1..]
    else [fields[0]] + Put(fields[1..], key, v)
  }

  /** After `d[key] = v`, `d[key]` is `v`. */
  lemma {:induction false} PutGet(fields: seq<(string, Value)>, key: string, v: Value)
    ensures Get(Put(fields, key, v), key) == Some(v)
  {
    if fields != [] && fields[0].0 != key {
      PutGet(fields[1..], key, v);
    }
  }

  /** `d[key] = v` leaves every other key's value as it was. */
  lemma {:induction false} PutOther(fields: seq<(string, Value)>, key: string, v: Value, other: string)
    requires other != key
    ensures Get(Put(fields, key, v), other) == Get(fields, other)
  {
    if fields != [] && fields[0].0 != key {
      PutOther(fields[1..], key, v, other);
    }
  }

  /** `d[key] = v` keeps the existing keys in their order and appends `key` only if it is new. */
  lemma {:induction false} PutKeys(fields: seq<(string, Value)>, key: string, v: Value)
    ensures Keys(Put(fields, key, v)) == if key in Keys(fields) then Keys(fields) else Keys(fields) + [key]
  {
    if fields != [] && fields[0].0 != key {
      PutKeys(fields[1..], key, v);
      assert Keys(fields) == [fields[0].0] + Keys(fields[1..]);
    }
  }

  /** `repr(v)`; quotes inside strings are not escaped. */
  function Repr(v: Value): string
    decreases v
  {
    match v
    case Null => "None"
    case Bool(b) => if b then "True" else "False"
    case Int(i) => Strings.IntToString(i)
    case Str(s) => "'" + s + "'"
    case List(items) =>
      "[" + Strings.JoinWith(seq(|items|, k requires 0 <= k < |items| => Repr(items[k])), ", ") + "]"
    case Dict(fields) =>
      "{" + Strings.JoinWith(seq(|fields|, k requires 0 <= k < |fields| =>
                                  assert fields[k] in fields;
                                  "'" + fields[k].0 + "': " + Repr(fields[k].1)), ", ") + "}"
  }

  /** `str(v)`, as an f-string renders it: a string as it is, anything else as its repr. */
  function StrOf(v: Value): string {
    if v.Str? then v.s else Repr(v)
  }
}
