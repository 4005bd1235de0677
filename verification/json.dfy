/** JSON request bodies, and the JavaScript and zod checks the route handlers
    apply to their fields. */
module Json {

  datatype Option<+T> = None | Some(value: T)

  /** A JSON value. No handler looks inside a nested array or object, so those
      form a single case. */
  datatype Value = Null | Bool(b: bool) | Number(n: real) | Text(s: string) | Composite

  /** What `await req.json()` yields: it throws on text that is not JSON and
      otherwise gives the top-level object. */
  datatype Body = Unparsable | Object(fields: map<string, Value>)

  /** Reading `body[key]`; `None` stands for `undefined`. */
  function Get(fields: map<string, Value>, key: string): (r: Option<Value>)
    ensures r.Some? <==> key in fields
    ensures r.Some? ==> r.value == fields[key]
  {
    if key in fields then Some(fields[key]) else None
  }

  /** JavaScript truthiness of a property read: `undefined`, `null`, `false`,
      `0` and `""` are falsy, everything else is truthy. */
  predicate Truthy(v: Option<Value>) {
    match v
    case None => false
    case Some(Null) => false
    case Some(Bool(b)) => b
    case Some(Number(n)) => n != 0.0
    case Some(Text(s)) => s != ""
    case Some(Composite) => true
  }

  /** `z.number()`: exactly a JSON number passes. */
  function ZodNumber(v: Option<Value>): (r: Option<real>)
    ensures r.Some? <==> v.Some? && v.value.Number?
    ensures r.Some? ==> v == Some(Number(r.value))
  {
    match v
    case Some(Number(n)) => Some(n)
    case _ => None
  }

  /** `z.string()`: exactly a JSON string passes. */
  function ZodString(v: Option<Value>): (r: Option<string>)
    ensures r.Some? <==> v.Some? && v.value.Text?
    ensures r.Some? ==> v == Some(Text(r.value))
  {
    match v
    case Some(Text(s)) => Some(s)
    case _ => None
  }
}
