/** A parsed JSON value as JavaScript sees it after `response.json()`, with
    the three JavaScript operations the dashboard applies to it: truthiness,
    property access and optional chaining. A missing property (`undefined`)
    is `None`. */
module Json {
  import opened Options

  datatype Value =
    | Null
    | Bool(b: bool)
    | Num(n: int)
    | Str(s: string)
    | Arr(items: seq<Value>)
    | Obj(fields: map<string, Value>)

  /** JavaScript's ToBoolean on a value JSON can produce: `null`, `false`,
      `0` and `""` are falsy; every array and object, even an empty one, is
      truthy. */
  predicate Truthy(v: Value) {
    match v
    case Null => false
    case Bool(b) => b
    case Num(n) => n != 0
    case Str(s) => s != ""
    case Arr(_) => true
    case Obj(_) => true
  }

  /** ToBoolean of a value that may be `undefined`. */
  predicate TruthyOpt(v: Option<Value>) {
    v.Some? && Truthy(v.value)
  }

  /** `v.key` on a value that is not `null` (on `null` it throws): an object's
      own field, the `length` of an array or a string, and `undefined`
      otherwise. */
  function Prop(v: Value, key: string): (r: Option<Value>)
    ensures r.Some? && key != "length" ==> v.Obj?
  {
    match v
    case Obj(f) => if key in f then Some(f[key]) else None
    case Arr(items) => if key == "length" then Some(Num(|items|)) else None
    case Str(s) => if key == "length" then Some(Num(|s|)) else None
    case _ => None
  }

  /** `v?.key`: `undefined` when `v` is `undefined` or `null`, and `v.key`
      otherwise. */
  function Chain(v: Option<Value>, key: string): (r: Option<Value>)
    ensures v.None? || v.value.Null? ==> r.None?
    ensures v.Some? && !v.value.Null? ==> r == Prop(v.value, key)
  {
    if v.None? || v.value.Null? then None else Prop(v.value, key)
  }

  /** `v[0]` on an array: its first element, or `undefined` when it is
      empty. */
  function First(items: seq<Value>): (r: Option<Value>)
    ensures r.Some? <==> |items| > 0
    ensures r.Some? ==> r.value == items[0]
  {
    if |items| > 0 then Some(items[0]) else None
  }

  /** `v.length > 0` for the property values the dashboard can meet: a
      numeric length compares as a number and a boolean as 0 or 1; an absent
      or `null` length is not positive. */
  predicate HasPositiveLength(v: Value) {
    match Prop(v, "length")
    case Some(Num(n)) => n > 0
    case Some(Bool(b)) => b
    case _ => false
  }

  /** An array has a positive length exactly when it is non-empty, and a
      string likewise. */
  lemma PositiveLength(items: seq<Value>, s: string)
    ensures HasPositiveLength(Arr(items)) <==> |items| > 0
    ensures HasPositiveLength(Str(s)) <==> |s| > 0
  {
  }

  /** A property other than `length` that is truthy can only have been read
      from an object, and objects are truthy: so the holder is truthy. */
  lemma TruthyPropHolder(v: Option<Value>, key: string)
    requires key != "length"
    requires TruthyOpt(Chain(v, key))
    ensures TruthyOpt(v) && v.value.Obj?
  {
  }
}
