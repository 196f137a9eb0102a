/** The part of the SDK's JSON value library that display content relies on. */
module Json {
  import opened Wrappers

  /** A JSON value; numbers are kept as integers. */
  datatype JsonValue =
    | JNull
    | JBool(b: bool)
    | JNumber(n: int)
    | JString(s: string)
    | JList(items: seq<JsonValue>)
    | JMap(fields: map<string, JsonValue>)
  {
    /** `optMap()`: the fields of an object, an empty map for any other value. */
    function OptMap(): map<string, JsonValue>
    {
      if JMap? then fields else map[]
    }

    /** `getString(default)`: the text of a string value, `default` for any other value. */
    function GetString(default: string): string
    {
      if JString? then s else default
    }

    /** `getString()`: the text of a string value, null for any other value. */
    function OptString(): Option<string>
    {
      if JString? then Some(s) else None
    }
  }
}
