/** JavaScript values as the request handlers and the store see them, and the
    handful of JavaScript operators the handlers branch on: truthiness, `||`,
    `===`, property reads and template-literal rendering of numbers. */
module Js {

  /** Database-assigned primary identifiers; opaque, modelled as naturals. */
  type Id = nat

  /** A JSON-like value. `Ref(id)` is a database-assigned identifier,
      `Date(ms)` a JavaScript Date object. Arrays, objects and dates are
      compared by reference in JavaScript, see StrictEquals. */
  datatype Value =
    | Undefined
    | Null
    | NaN
    | Bool(b: bool)
    | Num(n: real)
    | Str(s: string)
    | Arr(items: seq<Value>)
    | Obj(fields: map<string, Value>)
    | Ref(id: Id)
    | Date(ms: int)

  /** JavaScript truthiness: `undefined`, `null`, `NaN`, `false`, `0` and the
      empty string are falsy; every array, object and date is truthy. */
  predicate Truthy(v: Value) {
    match v
    case Undefined => false
    case Null => false
    case NaN => false
    case Bool(b) => b
    case Num(n) => n != 0.0
    case Str(s) => s != ""
    case _ => true
  }

  /** `a || b` */
  function Or(a: Value, b: Value): Value {
    if Truthy(a) then a else b
  }

  /** `v.name`: a missing property, or a property of a non-object, reads as
      `undefined`. */
  function Prop(v: Value, name: string): Value {
    if v.Obj? && name in v.fields then v.fields[name] else Undefined
  }

  /** `v.name = x` on an object; a non-object is left as it is. */
  function SetProp(v: Value, name: string, x: Value): Value {
    if v.Obj? then Obj(v.fields[name := x]) else v
  }

  /** Values that `===` compares by content: everything except NaN, arrays,
      objects and dates. */
  predicate Primitive(v: Value) {
    !(v.NaN? || v.Arr? || v.Obj? || v.Date?)
  }

  /** `a === b`. Primitive values are equal exactly when they have the same
      type and content; NaN equals nothing, and arrays, objects and dates
      built from a request are never the same object as one read from the
      database. */
  predicate StrictEquals(a: Value, b: Value) {
    Primitive(a) && a == b
  }

  lemma ReferencesNeverStrictlyEqual(a: Value, b: Value)
    requires a.Arr? || a.Obj? || a.Date? || a.NaN?
    ensures !StrictEquals(a, b) && !StrictEquals(b, a)
  {
  }

  /** `Number.isInteger(v)` */
  predicate IsInteger(v: Value) {
    v.Num? && v.n == v.n.Floor as real
  }

  /** The decimal digits of `n`, as a template literal renders it. */
  function Decimal(n: nat): (s: string)
    ensures |s| >= 1
    ensures forall i :: 0 <= i < |s| ==> '0' <= s[i] <= '9'
  {
    var d := ['0' + (n % 10) as char];
    if n < 10 then d else Decimal(n / 10) + d
  }

  /** The pieces of the `validator` library and of JavaScript's built-in
      conversions whose exact behaviour lies outside this model, as
      uninterpreted functions (neither idempotent nor injective). */
  datatype Env = Env(
    escape: string -> string,        // validator.escape on a string
    floatText: string -> string,     // validator.toFloat(s).toString()
    parseInt: string -> Option<int>, // parseInt(s, 10); None is NaN
    toNumber: Value -> Value,        // Number(v)
    toDate: Value -> Value           // new Date(v)
  )

  datatype Option<+T> = None | Some(value: T)

  /** The outcome of a library routine: a value, or a thrown Error with its
      message. */
  datatype Result<+T> = Ok(value: T) | Err(message: string) {
    predicate IsFailure() { Err? }
    function PropagateFailure<U>(): Result<U> requires Err? { Err(message) }
    function Extract(): T requires Ok? { value }
  }

  /** Stand-in message of the TypeError JavaScript throws when a property of
      `undefined` or `null` is read. */
  const CannotRead := "Cannot read properties of undefined"

  /** Whether reading a property of `v` throws. */
  predicate Nullish(v: Value) {
    v.Undefined? || v.Null?
  }

  /** Stand-in message of the TypeError validator throws on a non-string. */
  const NotAString := "Expected a string"

  /** `validator.escape(v)`: throws unless `v` is a string. */
  function Escape(env: Env, v: Value): (r: Result<Value>)
    ensures r.Ok? <==> v.Str?
    ensures r.Ok? ==> r.value == Str(env.escape(v.s))
  {
    if v.Str? then Ok(Str(env.escape(v.s))) else Err(NotAString)
  }

  /** `validator.toFloat(v).toString()`: throws unless `v` is a string. */
  function FloatText(env: Env, v: Value): (r: Result<Value>)
    ensures r.Ok? <==> v.Str?
    ensures r.Ok? ==> r.value == Str(env.floatText(v.s))
  {
    if v.Str? then Ok(Str(env.floatText(v.s))) else Err(NotAString)
  }

  /** Escapes every element of a list; throws on the first non-string. */
  function EscapeAll(env: Env, items: seq<Value>): (r: Result<seq<Value>>)
    ensures r.Ok? <==> forall i :: 0 <= i < |items| ==> items[i].Str?
    ensures r.Err? ==> r.message == NotAString
    ensures r.Ok? ==> |r.value| == |items|
    ensures r.Ok? ==> forall i :: 0 <= i < |items| ==> r.value[i] == Str(env.escape(items[i].s))
  {
    if items == [] then Ok([])
    else match EscapeAll(env, items[1..])
      case Err(m) => Err(m)
      case Ok(rest) =>
        if items[0].Str? then Ok([Str(env.escape(items[0].s))] + rest) else Err(NotAString)
  }

  /** `Array.isArray(v) ? v.map((f) => validator.escape(f)) : []` */
  function EscapeList(env: Env, v: Value): (r: Result<Value>)
    ensures !v.Arr? ==> r == Ok(Arr([]))
    ensures v.Arr? ==> (r.Ok? <==> EscapeAll(env, v.items).Ok?)
    ensures v.Arr? && r.Ok? ==> r.value == Arr(EscapeAll(env, v.items).value)
    ensures r.Err? ==> r.message == NotAString
  {
    if v.Arr? then
      match EscapeAll(env, v.items)
      case Ok(xs) => Ok(Arr(xs))
      case Err(m) => Err(m)
    else Ok(Arr([]))
  }

  /** `parseInt(v, 10)` on a string; NaN when nothing parses. */
  function ParseInt(env: Env, s: string): (r: Value)
    ensures r.NaN? || IsInteger(r)
  {
    match env.parseInt(s)
    case None => NaN
    case Some(k) => Num(k as real)
  }
}
