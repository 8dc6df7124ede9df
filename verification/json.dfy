/** JSON documents as the parser hands them over, and the Python built-ins
    that the source applies to them. */
module Json {
  import opened Prelude

  /** An object is a Python dict: keys are taken to be distinct. */
  datatype Json =
    | JNull
    | JBool(flag: bool)
    | JNumber(number: real)
    | JString(text: string)
    | JArray(items: seq<Json>)
    | JObject(fields: seq<Field>)

  datatype Field = Field(key: string, value: Json)

  /** Built-ins whose text-level behaviour is not modelled: `str` of anything
      that is not a string, `lower` of a text that is not all ASCII, `Decimal`
      of a text, `str` of a Decimal, `int` of anything that is neither a number
      nor a truth value, and the generated part of a new rule id. */
  datatype Python = Python(
    repr: Json -> string,
    lower: string -> string,
    parse: string -> Option<real>,
    show: real -> string,
    toInt: Json -> Option<int>,
    newId: Json -> string
  )

  function Str(py: Python, j: Json): string {
    if j.JString? then j.text else py.repr(j)
  }

  predicate Truthy(j: Json) {
    match j
    case JNull => false
    case JBool(flag) => flag
    case JNumber(number) => number != 0.0
    case JString(text) => text != ""
    case JArray(items) => items != []
    case JObject(fields) => fields != []
  }

  /** The values that count as false, one by one. */
  predicate IsFalsy(value: Json) {
    || value == JNull || value == JBool(false) || value == JNumber(0.0) || value == JString("")
    || value == JArray([]) || value == JObject([])
  }

  /** `dict.get` */
  function Get(fields: seq<Field>, key: string): Option<Json> {
    if fields == [] then None
    else if fields[0].key == key then Some(fields[0].value)
    else Get(fields[1..], key)
  }

  function GetOr(fields: seq<Field>, key: string, default: Json): Json {
    match Get(fields, key)
    case Some(value) => value
    case None => default
  }

  function LowerChar(c: char): char {
    if 'A' <= c <= 'Z' then (c as int + 32) as char else c
  }

  predicate IsAscii(s: string) {
    forall i :: 0 <= i < |s| ==> s[i] as int < 128
  }

  /** `str.lower` */
  function Lower(py: Python, s: string): string {
    if IsAscii(s) then seq(|s|, i requires 0 <= i < |s| => LowerChar(s[i])) else py.lower(s)
  }

  /** Every subtree of a document, itself included. */
  function Nodes(j: Json): set<Json> {
    {j} + match j
      case JArray(items) => NodesOfItems(items)
      case JObject(fields) => NodesOfFields(fields)
      case _ => {}
  }

  function NodesOfItems(items: seq<Json>): set<Json> {
    if items == [] then {} else Nodes(items[0]) + NodesOfItems(items[1..])
  }

  function NodesOfFields(fields: seq<Field>): set<Json> {
    if fields == [] then {} else Nodes(fields[0].value) + NodesOfFields(fields[1..])
  }
}
