/**
 * JavaScript values as the forms and the store handle them: plain objects are
 * maps from key to value, a missing key reads as `undefined`, and numbers are
 * integers (Rupiah and counts).
 */
module Values {
  import opened Common
  import Text

  datatype Value = Undefined | Null | NaN | Num(n: int) | Str(s: string)

  /** A plain object; a key that is absent reads as `undefined`. */
  type Obj = map<string, Value>

  /** `o[key]`. */
  function Get(o: Obj, key: string): Value
  {
    if key in o then o[key] else Undefined
  }

  /** JavaScript truthiness. */
  predicate Truthy(v: Value)
  {
    match v
    case Undefined => false
    case Null => false
    case NaN => false
    case Num(n) => n != 0
    case Str(s) => s != ""
  }

  /** `a ?? b`: `b` only when `a` is `null` or `undefined`. */
  function Coalesce(a: Value, b: Value): Value
  {
    if a.Undefined? || a.Null? then b else a
  }

  /** `Number(v)`: a number or NaN. */
  function ToNumber(v: Value): (r: Value)
    ensures r.Num? || r.NaN?
  {
    match v
    case Undefined => NaN
    case Null => Num(0)
    case NaN => NaN
    case Num(n) => Num(n)
    case Str(s) =>
      if s == "" then Num(0)
      else match Text.ParseDecimal(s)
        case Some(n) => Num(n)
        case None => NaN
  }

  /** `parseInt(v)`: the value is first turned into a string, then its leading digits are read. */
  function ParseInt(v: Value): (r: Value)
    ensures r.Num? || r.NaN?
  {
    var text := match v
      case Num(n) => Text.IntToString(n)
      case Str(s) => s
      case Undefined => "undefined"
      case Null => "null"
      case NaN => "NaN";
    match Text.ParseLeadingInt(text)
    case Some(n) => Num(n)
    case None => NaN
  }

  /** `x || d` where `x` is the result of `Number` or `parseInt`: NaN and 0 give `d`. */
  function NumberOr(x: Value, d: int): int
  {
    if x.Num? && x.n != 0 then x.n else d
  }

  /**
   * `a == b`, the loose equality the pages and the store compare ids with: a
   * number and a string are equal when the string reads as the number,
   * `null` and `undefined` equal each other and nothing else, NaN equals
   * nothing.
   */
  predicate LooseEquals(a: Value, b: Value)
  {
    if a.NaN? || b.NaN? then false
    else if a.Undefined? || a.Null? || b.Undefined? || b.Null? then
      (a.Undefined? || a.Null?) && (b.Undefined? || b.Null?)
    else if a.Num? && b.Num? then a.n == b.n
    else if a.Str? && b.Str? then a.s == b.s
    else if a.Num? then ToNumber(b) == a
    else ToNumber(a) == b
  }

  /** Loose equality is symmetric, and every value but NaN equals itself. */
  lemma LooseEqualsSymmetric(a: Value, b: Value)
    ensures LooseEquals(a, b) == LooseEquals(b, a)
    ensures !a.NaN? ==> LooseEquals(a, a)
  {
  }

  /** The text of a number, as a form's select field holds an id, equals the number. */
  lemma LooseEqualsRendering(n: int)
    ensures LooseEquals(Str(Text.IntToString(n)), Num(n))
    ensures LooseEquals(Num(n), Str(Text.IntToString(n)))
  {
    ToNumberOfRendering(n);
  }

  /** `parseInt` of a number gives the number back. */
  lemma ParseIntOfNumber(n: int)
    ensures ParseInt(Num(n)) == Num(n)
  {
    Text.IntToStringRoundTrip(n);
  }

  /** `Number` of a number's decimal rendering gives the number back. */
  lemma ToNumberOfRendering(n: int)
    ensures ToNumber(Str(Text.IntToString(n))) == Num(n)
  {
    Text.IntToStringRoundTrip(n);
  }
}
