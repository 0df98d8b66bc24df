/**
 Python values that tools return and that the runtime carries without interpreting them.
 `Opaque` stands for any object the json module refuses.
 */
module Values {
  import opened Wrappers

  datatype Value =
    | Null
    | Bool(truth: bool)
    | Num(number: real)
    | Str(text: string)
    | List(items: seq<Value>)
    | Tuple(parts: seq<Value>)
    | Dict(fields: seq<Field>)
    | Opaque(tag: nat)

  datatype Field = Field(key: string, value: Value)
}
