/** The JSON-like values that arrive in webhook payloads and exchange responses. */
module Json {

  datatype Value = Str(s: string) | Num(x: real) | Bool(b: bool) | Null

  /** A Python `dict` with string keys. */
  type Object = map<string, Value>
}
