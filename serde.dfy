/** The JSON values the snapshots of the hardware components serialise to:
    a struct is an ordered sequence of named fields. */
module Serde {
  import opened Results

  datatype Json = JString(text: string) | JNumber(number: int)

  datatype Field = Field(key: string, value: Json)

  /** The field names of a struct, in emission order. */
  function Keys(fields: seq<Field>): (ks: seq<string>)
    ensures |ks| == |fields|
    ensures forall i :: 0 <= i < |fields| ==> ks[i] == fields[i].key
  {
    if fields == [] then [] else [fields[0].key] + Keys(fields[1..])
  }

  /** The value of the first field called `key`, as a JSON reader finds it. */
  function Lookup(fields: seq<Field>, key: string): (v: Option<Json>)
    ensures v.Some? <==> key in Keys(fields)
  {
    if fields == [] then None
    else if fields[0].key == key then Some(fields[0].value)
    else Lookup(fields[1..], key)
  }
}
