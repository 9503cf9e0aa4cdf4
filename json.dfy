/**
 * JSON documents as `encoding/json` builds them from Go values, before they
 * are turned into bytes. A Go struct becomes an object keyed by its `json`
 * tags; a Go map an object keyed by its keys. Key order, number formatting
 * and the encoder's trailing newline are not modelled.
 */
module Json {

  datatype Value =
    | Null
    | Bool(b: bool)
    | Num(n: int)
    | Str(s: string)
    | Arr(items: seq<Value>)
    | Obj(fields: map<string, Value>)

  /** A Go `[]string` that is not nil, as a JSON array of strings. */
  function Strings(ss: seq<string>): (v: Value)
    ensures v.Arr? && |v.items| == |ss|
    ensures forall i :: 0 <= i < |ss| ==> v.items[i] == Str(ss[i])
  {
    Arr(seq(|ss|, i requires 0 <= i < |ss| => Str(ss[i])))
  }
}
