/**
 * The untyped JavaScript values that can arrive as the arguments of a tool
 * call, with the few operators the request pipeline applies to them:
 * `typeof`, truthiness, the `in` operator, property access and the
 * conversion to a number performed by `*`, the conversion to text performed
 * by `${...}` in a template literal, and the reading of a literal back from
 * source text.
 */
module JsValues {
  import opened Outcomes

  /** A JavaScript value. Numbers are modelled by integers. */
  datatype JsValue =
    | Undefined
    | Null
    | Bool(b: bool)
    | Number(n: int)
    | Str(s: string)
    | Array(elements: seq<JsValue>)
    | Object(properties: map<string, JsValue>)

  /** The string the `typeof` operator yields. */
  function TypeOf(v: JsValue): string {
    match v
    case Undefined => "undefined"
    case Null => "object"
    case Bool(_) => "boolean"
    case Number(_) => "number"
    case Str(_) => "string"
    case Array(_) => "object"
    case Object(_) => "object"
  }

  /** True when `if (v)` takes its then-branch. */
  predicate Truthy(v: JsValue) {
    match v
    case Undefined => false
    case Null => false
    case Bool(b) => b
    case Number(n) => n != 0
    case Str(s) => s != ""
    case Array(_) => true
    case Object(_) => true
  }

  /** The values on which the `in` operator does not throw a TypeError. */
  predicate IsObjectLike(v: JsValue) {
    TypeOf(v) == "object" && v != Null
  }

  /**
   * `key in v`. Only own properties are modelled; the index keys of an
   * array are not, since no caller asks for one.
   */
  predicate HasProperty(v: JsValue, key: string)
    requires IsObjectLike(v)
  {
    if v.Object? then key in v.properties else key == "length"
  }

  /** `v[key]`: a missing property reads as `undefined`. */
  function Get(v: JsValue, key: string): (r: JsValue)
    requires IsObjectLike(v)
    ensures !HasProperty(v, key) ==> r == Undefined
    ensures v.Object? && key in v.properties ==> r == v.properties[key]
  {
    if v.Object? then
      (if key in v.properties then v.properties[key] else Undefined)
    else if key == "length" then Number(|v.elements|)
    else Undefined
  }

  /** A numeric result of JavaScript arithmetic: an integer or NaN. */
  datatype Num = Finite(value: int) | NaN

  /**
   * The conversion `*` applies to its operands. Strings and arrays, which
   * JavaScript sometimes converts to a number, are taken to be NaN here.
   */
  function ToNumber(v: JsValue): Num {
    match v
    case Null => Finite(0)
    case Bool(b) => Finite(if b then 1 else 0)
    case Number(n) => Finite(n)
    case _ => NaN
  }

  // ----- Values as source text ------------------------------------------

  predicate IsDigit(c: char) {
    '0' <= c <= '9'
  }

  function DigitChar(d: nat): (c: char)
    requires d < 10
    ensures IsDigit(c)
  {
    (d + '0' as int) as char
  }

  function DigitValue(c: char): (d: nat)
    requires IsDigit(c)
    ensures d < 10
  {
    c as int - '0' as int
  }

  /** The decimal numeral of `n`, without leading zeros. */
  function NatText(n: nat): (s: string)
    ensures |s| > 0 && forall i :: 0 <= i < |s| ==> IsDigit(s[i])
  {
    if n < 10 then [DigitChar(n)] else NatText(n / 10) + [DigitChar(n % 10)]
  }

  /** The value of a decimal numeral; `None` when `s` is empty or holds a non-digit. */
  function ParseDigits(s: string): Option<nat> {
    if |s| == 0 || !IsDigit(s[|s| - 1]) then None
    else if |s| == 1 then Some(DigitValue(s[0]))
    else
      match ParseDigits(s[..|s| - 1])
      case None => None
      case Some(m) => Some(10 * m + DigitValue(s[|s| - 1]))
  }

  /** `String(n)` for an integer. */
  function IntText(n: int): string {
    if n < 0 then "-" + NatText(-n) else NatText(n)
  }

  /** `String(n)` for the result of arithmetic. */
  function NumText(n: Num): string {
    match n
    case NaN => "NaN"
    case Finite(k) => IntText(k)
  }

  /**
   * `${v}`: the text a template literal substitutes for `v`. A string is
   * substituted as it is, quotes and braces included.
   */
  function TemplateText(v: JsValue): string {
    match v
    case Undefined => "undefined"
    case Null => "null"
    case Bool(b) => if b then "true" else "false"
    case Number(n) => IntText(n)
    case Str(s) => s
    case Array(elements) => ElementsText(elements)
    case Object(_) => "[object Object]"
  }

  /** `String` of an array: the elements joined by commas, `null` and `undefined` as empty text. */
  function ElementsText(elements: seq<JsValue>): string {
    if elements == [] then ""
    else
      var last := elements[|elements| - 1];
      var lastText := if last.Undefined? || last.Null? then "" else TemplateText(last);
      if |elements| == 1 then lastText else ElementsText(elements[..|elements| - 1]) + "," + lastText
  }

  /**
   * The value of a JSX attribute expression that is a literal: `undefined`,
   * `null`, `true`, `false` or a decimal integer with an optional minus
   * sign. Any other text is not a literal, and is `None`.
   */
  function LiteralValue(text: string): Option<JsValue> {
    if text == "undefined" then Some(Undefined)
    else if text == "null" then Some(Null)
    else if text == "true" then Some(Bool(true))
    else if text == "false" then Some(Bool(false))
    else if |text| > 0 && text[0] == '-' then
      match ParseDigits(text[1..])
      case None => None
      case Some(n) => Some(Number(-(n as int)))
    else
      match ParseDigits(text)
      case None => None
      case Some(n) => Some(Number(n))
  }

  /** The value of a numeric attribute expression: `NaN`, or an integer literal. */
  function NumLiteral(text: string): Option<Num> {
    if text == "NaN" then Some(NaN)
    else
      match LiteralValue(text)
      case Some(Number(n)) => Some(Finite(n))
      case _ => None
  }

  /** Reading a numeral back gives the number it was written from. */
  lemma {:induction false} NatTextRoundTrip(n: nat)
    ensures ParseDigits(NatText(n)) == Some(n)
  {
    if n >= 10 {
      var s := NatText(n);
      assert s[..|s| - 1] == NatText(n / 10);
      NatTextRoundTrip(n / 10);
    }
  }

  /** The values a template writes as a literal: their text reads back as the same value. */
  predicate HasLiteralText(v: JsValue) {
    v.Undefined? || v.Null? || v.Bool? || v.Number?
  }

  lemma TemplateTextRoundTrip(v: JsValue)
    requires HasLiteralText(v)
    ensures LiteralValue(TemplateText(v)) == Some(v)
  {
    if v.Number? {
      var n := v.n;
      var m: nat := if n < 0 then -n else n;
      NatTextRoundTrip(m);
      var text := TemplateText(v);
      if n < 0 {
        assert text[1..] == NatText(m);
      } else {
        assert IsDigit(text[0]);
      }
    }
  }

  lemma NumTextRoundTrip(n: Num)
    ensures NumLiteral(NumText(n)) == Some(n)
  {
    if n.Finite? {
      TemplateTextRoundTrip(Number(n.value));
    }
  }

  /** A string is written as its own characters, so a numeric string reads back as a number, not a string. */
  lemma StringTextReadsAsNumber()
    ensures TemplateText(Str("60")) == TemplateText(Number(60))
    ensures LiteralValue(TemplateText(Str("60"))) == Some(Number(60))
  {
    TemplateTextRoundTrip(Number(60));
    assert NatText(60) == "60";
  }
}
