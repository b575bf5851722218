/**
 * The value a model keeps in `storage` and writes to its file: a JSON
 * document (`storage` starts as the empty object `{}`). The text encoding
 * is not modelled; a file holds the value itself.
 */
module Json {

  datatype Value =
    | Null
    | Boolean(b: bool)
    | Number(n: int)
    | String(s: string)
    | Array(items: seq<Value>)
    | Object(fields: map<string, Value>)
}
