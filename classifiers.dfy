/** The values a classifier holds (Go's map[string]interface{}) and the
    mutable map object the client enriches in place. */
module Classifiers {

  /** A JSON-shaped dynamic value. `Null` is Go's nil interface value. */
  datatype Value =
    | Null
    | Bool(b: bool)
    | Num(n: int)
    | Str(s: string)
    | List(items: seq<Value>)
    | Object(fields: map<string, Value>)

  type ClassifierData = map<string, Value>

  /** Go's classifier[key]: the stored value, or nil for a missing key. */
  function Lookup(c: ClassifierData, key: string): (v: Value)
    ensures v != Null ==> key in c && c[key] == v
    ensures key in c ==> v == c[key]
  {
    if key in c then c[key] else Null
  }

  /** classifier[key] != nil: the key is there and does not hold nil. */
  predicate Present(c: ClassifierData, key: string) {
    Lookup(c, key) != Null
  }

  /** A Go map value: callers and the client share it, so a write through
      one is seen through the other. */
  class ClassifierMap {
    var entries: ClassifierData

    constructor (entries: ClassifierData)
      ensures this.entries == entries
    {
      this.entries := entries;
    }
  }
}
