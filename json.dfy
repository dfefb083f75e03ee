/**
 * JSON values as the recommendation API returns them in an error body, JavaScript's
 * truthiness and property access on them, and `JSON.stringify` of a value.
 */
module Json {
  import opened Wrappers
  import opened Strings

  /** Numbers are modelled as integers; object members keep their insertion order. */
  datatype Json =
    | JNull
    | JBool(b: bool)
    | JNumber(n: int)
    | JString(s: string)
    | JArray(items: seq<Json>)
    | JObject(members: seq<Member>)

  datatype Member = Member(key: string, value: Json)

  /** `Boolean(v)` for a JSON value. */
  predicate JsonTruthy(v: Json) {
    match v
    case JNull => false
    case JBool(b) => b
    case JNumber(n) => n != 0
    case JString(s) => s != ""
    case _ => true
  }

  function Lookup(members: seq<Member>, key: string): (r: Option<Json>)
    ensures r.Some? <==> exists i :: 0 <= i < |members| && members[i].key == key
  {
    if members == [] then None
    else if members[0].key == key then Some(members[0].value)
    else
      var r := Lookup(members[1..], key);
      assert forall i :: 1 <= i < |members| ==> members[i] == members[1..][i - 1];
      r
  }

  /** `v?.[key]`: a member of an object; undefined (None) on anything else or when absent. */
  function Get(v: Option<Json>, key: string): Option<Json> {
    if v.Some? && v.value.JObject? then Lookup(v.value.members, key) else None
  }

  /** The escape JSON.stringify writes for a character that must not appear raw. */
  function Escape(c: char): string {
    if c == '"' then "\\\""
    else if c == '\\' then "\\\\"
    else if c == '\U{0008}' then "\\b"
    else if c == '\t' then "\\t"
    else if c == '\n' then "\\n"
    else if c == '\U{000C}' then "\\f"
    else if c == '\r' then "\\r"
    else if c < ' ' then "\\u00" + [HexDigitChar(c as int / 16), HexDigitChar(c as int % 16)]
    else [c]
  }

  function QuoteBody(s: string): string {
    if s == [] then "" else Escape(s[0]) + QuoteBody(s[1..])
  }

  /** `JSON.stringify` of a string: quoted, with the JSON escapes. */
  function Quote(s: string): string {
    "\"" + QuoteBody(s) + "\""
  }

  function Stringify(v: Json): string
    decreases v
  {
    match v
    case JNull => "null"
    case JBool(b) => if b then "true" else "false"
    case JNumber(n) => IntToString(n)
    case JString(s) => Quote(s)
    case JArray(items) =>
      "[" + Join(seq(|items|, i requires 0 <= i < |items| => Stringify(items[i])), ",") + "]"
    case JObject(members) =>
      "{" + Join(seq(|members|, i requires 0 <= i < |members| =>
                   Quote(members[i].key) + ":" + Stringify(members[i].value)), ",") + "}"
  }
}
