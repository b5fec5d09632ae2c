/** JavaScript values as the admin panel receives them from the backend:
    JSON-like values, records (plain objects) with distinct keys, truthiness
    and property assignment. */
module Js {

  datatype Option<+T> = None | Some(value: T)

  /** A JSON-like value. `Structured` is every value lodash's `isObject`
      accepts (plain objects and arrays; an array's members are keyed by
      their indices). */
  datatype Value =
    | Undefined
    | Null
    | Bool(b: bool)
    | Num(n: int)
    | Str(s: string)
    | Structured(members: seq<Field>)

  /** One own property of an object, in enumeration order. */
  datatype Field = Field(key: string, value: Value)

  /** lodash `isObject`: the value is not a primitive. */
  predicate IsObject(v: Value)
    ensures IsObject(v) <==> !(v.Undefined? || v.Null? || v.Bool? || v.Num? || v.Str?)
  {
    v.Structured?
  }

  /** JavaScript truthiness of a value (`!!v`): every value except the
      falsy ones `undefined`, `null`, `false`, `0` and `""`. */
  predicate Truthy(v: Value)
    ensures Truthy(v) <==>
      v != Undefined && v != Null && v != Bool(false) && v != Num(0) && v != Str("")
  {
    match v
    case Undefined => false
    case Null => false
    case Bool(b) => b
    case Num(n) => n != 0
    case Str(s) => s != ""
    case Structured(_) => true
  }

  /** The value read from a property that is either absent or holds a string. */
  function StringProperty(o: Option<string>): Value {
    match o
    case None => Undefined
    case Some(s) => Str(s)
  }

  /** The value read from a property that is either absent or holds a boolean. */
  function BoolProperty(o: Option<bool>): Value {
    match o
    case None => Undefined
    case Some(b) => Bool(b)
  }

  /** Truthiness of a property that is either absent or holds a string. */
  predicate TruthyString(o: Option<string>)
    ensures TruthyString(o) <==> Truthy(StringProperty(o))
  {
    o.Some? && o.value != ""
  }

  /** The text a template literal produces for such a property. */
  function Show(o: Option<string>): string {
    match o
    case None => "undefined"
    case Some(s) => s
  }

  predicate DistinctKeys(fields: seq<Field>) {
    forall i, j :: 0 <= i < j < |fields| ==> fields[i].key != fields[j].key
  }

  /** A plain object: its own properties in enumeration order, each key once. */
  type Record = fields: seq<Field> | DistinctKeys(fields)

  /** `Object.keys`: the keys in enumeration order. */
  function Keys(fields: seq<Field>): (ks: seq<string>)
    ensures |ks| == |fields|
    ensures forall i :: 0 <= i < |fields| ==> ks[i] == fields[i].key
  {
    if fields == [] then [] else [fields[0].key] + Keys(fields[1..])
  }

  /** Property read `obj[k]`; `None` when `obj` has no property `k`. */
  function Get(r: Record, k: string): (v: Option<Value>)
    ensures v.Some? <==> k in Keys(r)
    ensures forall i :: 0 <= i < |r| && r[i].key == k ==> v == Some(r[i].value)
    decreases |r|
  {
    if r == [] then None
    else if r[0].key == k then Some(r[0].value)
    else Get(r[1..], k)
  }

  /** Property assignment `obj[k] = v`: an existing property is overwritten
      where it stands, a new one is added after the others. */
  function Assign(r: Record, k: string, v: Value): (t: Record)
    ensures Keys(t) == if k in Keys(r) then Keys(r) else Keys(r) + [k]
    ensures k !in Keys(r) ==> t == r + [Field(k, v)]
    decreases |r|
  {
    if r == [] then ConsRecord(Field(k, v), [])
    else
      var tail := Tail(r);
      if r[0].key == k then ConsRecord(Field(k, v), tail)
      else
        var rest := Assign(tail, k, v);
        assert k in Keys(r) <==> k in Keys(tail);
        assert Keys(r) + [k] == [r[0].key] + (Keys(tail) + [k]);
        ConsRecord(r[0], rest)
  }

  /** After `obj[k] = v`, reading `k` gives `v` and every other property
      reads as before. */
  lemma {:induction false} AssignGet(r: Record, k: string, v: Value, k': string)
    ensures Get(Assign(r, k, v), k') == if k' == k then Some(v) else Get(r, k')
    decreases |r|
  {
    if r != [] {
      var tail := Tail(r);
      if r[0].key != k {
        AssignGet(tail, k, v, k');
      }
    }
  }

  /** A record without its first property. */
  function Tail(r: Record): (t: Record)
    requires r != []
    ensures t == r[1..]
    ensures Keys(r) == [r[0].key] + Keys(t)
    ensures r[0].key !in Keys(t)
    ensures forall k :: Get(r, k) == if r[0].key == k then Some(r[0].value) else Get(t, k)
  {
    r[1..]
  }

  /** A field with a fresh key put in front of a record. */
  function ConsRecord(f: Field, rest: Record): (t: Record)
    requires f.key !in Keys(rest)
    ensures t == [f] + rest
    ensures Keys(t) == [f.key] + Keys(rest)
    ensures forall k :: Get(t, k) == if f.key == k then Some(f.value) else Get(rest, k)
  {
    var t: seq<Field> := [f] + rest;
    assert forall j :: 0 < j < |t| ==> t[j] == rest[j - 1];
    assert t[1..] == rest;
    t
  }
}
