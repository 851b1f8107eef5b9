/** The values that travel along graph edges and sit in state cells.
    JavaScript's dynamic `any` is closed down to the shapes the store layer
    uses; `Undef` is `undefined`, which the engine also reads as "no value". */
module Values {

  datatype Value =
    | Undef
    | Null
    | Int(i: int)
    | Str(s: string)
    | Arr(items: seq<Value>)

  /** Named values a command's callback receives beside the traversal value. */
  type Scope = map<string, Value>

  /** Property access on a scope: a missing key reads as `undefined`. */
  function Lookup(sc: Scope, key: string): (v: Value)
    ensures key !in sc ==> v == Undef
    ensures key in sc ==> v == sc[key]
  {
    if key in sc then sc[key] else Undef
  }

  function DigitChar(d: nat): char
    requires d < 10
  {
    "0123456789"[d]
  }

  function NatToString(n: nat): string
    decreases n
  {
    if n < 10 then [DigitChar(n)] else NatToString(n / 10) + [DigitChar(n % 10)]
  }

  /** `String(v)`, as a template literal renders a value. */
  function Show(v: Value): string
    decreases v
  {
    match v
    case Undef => "undefined"
    case Null => "null"
    case Int(n) => if n < 0 then "-" + NatToString(-n) else NatToString(n)
    case Str(s) => s
    case Arr(items) => ShowItems(items)
  }

  /** `items.join(",")`, the rendering of an array: an undefined or null
      element renders as the empty string. */
  function ShowItems(items: seq<Value>): string
    decreases items
  {
    if items == [] then ""
    else
      var head := if items[0].Undef? || items[0].Null? then "" else Show(items[0]);
      if |items| == 1 then head else head + "," + ShowItems(items[1..])
  }
}
