/**
  The dynamically typed values that travel inside command envelopes and
  replay frames (a JavaScript value as the MessagePack codec sees it).
  Numbers are kept as mathematical reals; the codec's own number widths are
  not part of this model.
 */
module Json {

  datatype Value =
    | Null
    | Bool(b: bool)
    | Num(x: real)
    | Str(s: string)
    | Arr(items: seq<Value>)
    | Obj(fields: map<string, Value>)

  /** The empty object literal `{}`. */
  const Empty: Value := Obj(map[])
}
