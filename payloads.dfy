/**
 Bot responses as the services page handles them. The completion endpoint answers
 either with JSON, whose `message` field is kept, or with plain text; both end up in
 the chat log and in the session memory. `Render` is the JavaScript coercion of the
 remembered responses to text inside a template literal (`${recentResponses}`).
 */
module Payloads {

  /** A JSON value, as a parsed `message` field may hold it (numbers restricted to integers). */
  datatype JsonValue =
    | JNull
    | JBool(b: bool)
    | JNumber(n: int)
    | JString(s: string)
    | JArray(items: seq<JsonValue>)
    | JObject(fields: seq<(string, JsonValue)>)

  /** A normalized bot response: the JSON `message` field, or the raw response text. */
  datatype Payload = Json(value: JsonValue) | Text(text: string)

  function DigitChar(d: nat): char
    requires d < 10
  {
    "0123456789"[d]
  }

  /** Decimal notation of a natural number, without leading zeros. */
  function NatToDecimal(n: nat): string
    decreases n
  {
    if n < 10 then [DigitChar(n)] else NatToDecimal(n / 10) + [DigitChar(n % 10)]
  }

  function IntToDecimal(n: int): string
  {
    if n < 0 then "-" + NatToDecimal(-n) else NatToDecimal(n)
  }

  /** How a value reads when it is an element of an array joined to text:
      null becomes empty, nested arrays are joined again, objects read "[object Object]". */
  function ElementText(v: JsonValue): string
    decreases v, 1
  {
    match v
    case JNull => ""
    case JBool(b) => if b then "true" else "false"
    case JNumber(n) => IntToDecimal(n)
    case JString(s) => s
    case JArray(items) => JoinValues(items)
    case JObject(_) => "[object Object]"
  }

  /** Array.prototype.join with the default separator ",". */
  function JoinValues(items: seq<JsonValue>): string
    decreases items, 0
  {
    if items == [] then ""
    else if |items| == 1 then ElementText(items[0])
    else ElementText(items[0]) + "," + JoinValues(items[1..])
  }

  /** A remembered response as an element of the memory array. */
  function PayloadText(p: Payload): string
  {
    match p
    case Json(v) => ElementText(v)
    case Text(s) => s
  }

  /** `${responses}`: the remembered responses joined by ",". */
  function Render(ps: seq<Payload>): string
  {
    if ps == [] then ""
    else if |ps| == 1 then PayloadText(ps[0])
    else PayloadText(ps[0]) + "," + Render(ps[1..])
  }
}
