/** JSON values as the serializers see them: objects are maps, so key order and
    printing are not represented. */
module Json {
  import opened Prelude

  datatype Value =
    | Null
    | Bool(truth: bool)
    | Number(number: int)
    | Text(text: string)
    | Array(items: seq<Value>)
    | Object(fields: map<string, Value>)

  /** A field of an object; `None` for a missing field and for any other value. */
  function Get(value: Value, key: string): Option<Value> {
    if value.Object? && key in value.fields then Some(value.fields[key]) else None
  }
}
