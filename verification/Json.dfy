/** The values `json.loads` can produce, with the parser itself left as a parameter of the models that use it. */
module Json {
  import opened Common

  /** `NonFinite` stands for the `NaN`, `Infinity` and `-Infinity` literals Python's parser accepts. */
  datatype Json =
    | Null
    | Bool(flag: bool)
    | Int(n: int)
    | Float(r: real)
    | NonFinite
    | Str(text: string)
    | Arr(items: seq<Json>)
    | Obj(fields: map<string, Json>)
  {
    /** `value.get(key)` on an object; anything else has no fields. */
    function Get(key: string): Option<Json> {
      if Obj? && key in fields then Some(fields[key]) else None
    }

    predicate Has(key: string, text: string) {
      Get(key) == Some(Str(text))
    }
  }
}
