/**
 * The dynamically typed values that flow through the filter record: the text of an
 * input field or a page number, with JavaScript's truthiness and `String(...)`.
 */
module Values {
  import opened Wrappers
  import opened Text

  datatype Value = Str(s: string) | Num(n: int)

  /** JavaScript truthiness: "" and 0 are falsy, everything else is truthy. */
  predicate Truthy(v: Value) {
    match v
    case Str(s) => s != ""
    case Num(n) => n != 0
  }

  /** `String(v)`. */
  function ToText(v: Value): string {
    match v
    case Str(s) => s
    case Num(n) => IntToString(n)
  }

  /** A property read: `obj[key]`, absent when the key is missing. */
  function Lookup<V>(obj: map<string, V>, key: string): (r: Option<V>)
    ensures r.Some? <==> key in obj
    ensures r.Some? ==> r.value == obj[key]
  {
    if key in obj then Some(obj[key]) else None
  }

  /** A destructuring default: `const { key = default } = obj`. */
  function FieldOr(obj: map<string, Value>, key: string, default: Value): (v: Value)
    ensures key in obj ==> v == obj[key]
    ensures key !in obj ==> v == default
  {
    if key in obj then obj[key] else default
  }
}
