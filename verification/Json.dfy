// JSON values. An object keeps its members in insertion order, as the runtime's objects do.
module Json {
  import opened Wrappers

  datatype Field = Field(name: string, value: Json)

  datatype Json =
    | Null
    | Bool(flag: bool)
    | Num(number: real)
    | Str(text: string)
    | Arr(items: seq<Json>)
    | Obj(fields: Object)

  type Object = seq<Field>

  /** A number as it is printed. */
  function Digits(n: nat): string {
    if n < 10 then [('0' as int + n) as char] else Digits(n / 10) + [('0' as int + n % 10) as char]
  }

  /** Read a member: the first with that name. */
  function Get(fields: Object, name: string): Option<Json> {
    if fields == [] then None
    else if fields[0].name == name then Some(fields[0].value)
    else Get(fields[1..], name)
  }

  /** Assign a member: in place when it exists, otherwise appended. */
  function Set(fields: Object, name: string, value: Json): Object {
    if fields == [] then [Field(name, value)]
    else if fields[0].name == name then [Field(name, value)] + fields[1..]
    else [fields[0]] + Set(fields[1..], name, value)
  }

  /** The object spread `{...target, ...source}`. */
  function Spread(target: Object, source: Object): Object
    decreases |source|
  {
    if source == [] then target
    else Spread(Set(target, source[0].name, source[0].value), source[1..])
  }
}
