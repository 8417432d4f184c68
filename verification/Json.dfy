// JSON values as the server sees them after parsing, and the optional value
// every other module shares.
module Json {
  datatype Option<+T> = None | Some(value: T)

  datatype Value =
    | Null
    | Bool(flag: bool)
    | Number(literal: string)
    | String(text: string)
    | Array(items: seq<Value>)
    | Object(fields: seq<Field>)

  // Fields are kept in the order `Object.values` visits them.
  datatype Field = Field(key: string, value: Value)

  // Reading a property: the field of that name, or undefined.
  function Lookup(fields: seq<Field>, key: string): Option<Value> {
    if fields == [] then None
    else if fields[0].key == key then Some(fields[0].value)
    else Lookup(fields[1..], key)
  }

  function Get(value: Value, key: string): Option<Value> {
    if value.Object? then Lookup(value.fields, key) else None
  }
}
