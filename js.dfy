/**
 * The small part of JavaScript's value semantics the core depends on: truthiness,
 * optional request parameters and Array.prototype.slice.
 */
module Js {
  import opened Wrappers

  /**
   * A JavaScript value as far as the core inspects it: `Num` is a finite number, `NaN` the
   * result of an arithmetic or parse that has none, `Object` any object or array.
   */
  datatype Value = Undefined | Null | Bool(b: bool) | Num(n: real) | NaN | Str(s: string) | Object

  /** JavaScript truthiness. */
  predicate Truthy(v: Value)
  {
    match v
    case Undefined => false
    case Null => false
    case Bool(b) => b
    case Num(n) => n != 0.0
    case NaN => false
    case Str(s) => s != ""
    case Object => true
  }

  /** The own properties of a plain object, by name. */
  type Fields = map<string, Value>

  /** `o[name]`: the property's value, or undefined when the object has no such property. */
  function Prop(o: Fields, name: string): Value
  {
    if name in o then o[name] else Undefined
  }

  /** A string request parameter that may be missing (`None` is null or undefined): is it truthy? */
  predicate Given(p: Option<string>)
  {
    p.Some? && p.value != ""
  }

  /** How Array.prototype.slice turns a possibly negative index into a position in [0, len]. */
  function RelIndex(i: int, len: nat): (r: nat)
    ensures r <= len
    ensures 0 <= i ==> r == if i <= len then i else len
    ensures i < 0 ==> r == if len + i < 0 then 0 else len + i
  {
    if i < 0 then (if len + i < 0 then 0 else len + i) else if i > len then len else i
  }

  /** `s.slice(begin, end)`. */
  function Slice<T>(s: seq<T>, begin: int, end: int): seq<T>
  {
    var b, e := RelIndex(begin, |s|), RelIndex(end, |s|);
    if b < e then s[b..e] else []
  }
  // ---- Numeric strings ----

  predicate IsDigit(c: char)
  {
    '0' <= c <= '9'
  }

  predicate AllDigits(s: string)
  {
    forall i :: 0 <= i < |s| ==> IsDigit(s[i])
  }

  /** An optionally negative run of decimal digits, such as a query parameter "25" or "-3". */
  predicate IsDecimal(s: string)
  {
    |s| > 0 && if s[0] == '-' then |s| > 1 && AllDigits(s[1..]) else AllDigits(s)
  }

  type DecimalText = s: string | IsDecimal(s) witness "0"

  /** The value of a run of decimal digits, most significant first. */
  function DigitsValue(s: string): nat
    requires AllDigits(s)
  {
    if |s| == 0 then 0 else DigitsValue(s[..|s| - 1]) * 10 + (s[|s| - 1] as int - '0' as int)
  }

  function Pow10(n: nat): (p: nat)
    ensures p >= 1
  {
    if n == 0 then 1 else 10 * Pow10(n - 1)
  }

  /** `Number(s)` for a decimal text. */
  function NumberOf(s: DecimalText): int
  {
    if s[0] == '-' then -(DigitsValue(s[1..]) as int) else DigitsValue(s)
  }

  /** Writing digits `b` after digits `a` shifts `a` left by `|b|` places. */
  lemma {:induction false} DigitsConcat(a: string, b: string)
    requires AllDigits(a) && AllDigits(b)
    ensures AllDigits(a + b)
    ensures DigitsValue(a + b) == DigitsValue(a) * Pow10(|b|) + DigitsValue(b)
    decreases |b|
  {
    if b == [] {
      assert a + b == a;
    } else {
      var b' := b[..|b| - 1];
      var ab := a + b;
      assert ab[..|ab| - 1] == a + b';
      var d := b[|b| - 1] as int - '0' as int;
      assert ab[|ab| - 1] == b[|b| - 1];
      DigitsConcat(a, b');
      assert AllDigits(ab) by {
        forall i | 0 <= i < |ab| ensures IsDigit(ab[i]) {
          if i < |a| { assert ab[i] == a[i]; } else { assert ab[i] == b[i - |a|]; }
        }
      }
      ShiftStep(DigitsValue(a), Pow10(|b'|), DigitsValue(b'), d);
    }
  }

  lemma ShiftStep(x: int, p: int, y: int, d: int)
    ensures (x * p + y) * 10 + d == x * (10 * p) + (y * 10 + d)
  {
  }

  /**
   * JavaScript's `a + b` on two strings concatenates them. When `b` is a positive decimal the
   * result is again decimal, and its number is `a`'s shifted left by the length of `b`, plus
   * `b` (or minus `b` after a minus sign).
   */
  lemma ConcatDecimal(a: DecimalText, b: DecimalText)
    requires NumberOf(b) > 0
    ensures IsDecimal(a + b) && (a + b)[0] == a[0]
    ensures a[0] != '-' ==> NumberOf(a + b) == NumberOf(a) * Pow10(|b|) + NumberOf(b)
    ensures a[0] == '-' ==> NumberOf(a + b) == NumberOf(a) * Pow10(|b|) - NumberOf(b)
  {
    assert b[0] != '-';
    assert AllDigits(b);
    if a[0] == '-' {
      NegConcat(a, b);
      DigitsConcat(a[1..], b);
      NegShift(NumberOf(a), DigitsValue(a[1..]), Pow10(|b|), DigitsValue(b));
    } else {
      PosConcat(a, b);
    }
  }

  lemma PosConcat(a: string, b: string)
    requires |a| > 0 && a[0] != '-' && AllDigits(a) && AllDigits(b)
    ensures IsDecimal(a + b) && (a + b)[0] == a[0]
    ensures NumberOf(a + b) == DigitsValue(a) * Pow10(|b|) + DigitsValue(b)
  {
    DigitsConcat(a, b);
  }

  lemma NegConcat(a: string, b: string)
    requires |a| > 1 && a[0] == '-' && AllDigits(a[1..]) && AllDigits(b)
    ensures IsDecimal(a) && IsDecimal(a + b) && (a + b)[0] == '-'
    ensures AllDigits(a[1..] + b) && NumberOf(a + b) == -(DigitsValue(a[1..] + b) as int)
  {
    assert (a + b)[1..] == a[1..] + b;
    DigitsConcat(a[1..], b);
  }

  lemma NegShift(w: int, v: int, p: int, y: int)
    requires w == -v
    ensures w * p - y == -(v * p + y)
  {
  }

  /**
   * `Number(s)` as the arithmetic operators apply it to a string: 0 for the empty string,
   * the value of a decimal text, NaN for anything else.
   */
  function StringToNumber(s: string): (r: Value)
    ensures r.Num? || r.NaN?
    ensures IsDecimal(s) ==> r == Num(NumberOf(s) as real)
  {
    if s == "" then Num(0.0) else if IsDecimal(s) then Num(NumberOf(s) as real) else NaN
  }

  /**
   * `parseFloat(v)`, the parse of a string given as `parse` (None where the text does not
   * start with a number): a number stays itself; null, undefined, booleans and objects are NaN.
   */
  function ParseFloat(v: Value, parse: string -> Option<real>): (r: Value)
    ensures r.Num? || r.NaN?
    ensures v.Num? ==> r == v
    ensures v.Str? ==> (r.Num? <==> parse(v.s).Some?)
    ensures v.Str? && parse(v.s).Some? ==> r == Num(parse(v.s).value)
    ensures !v.Num? && !v.Str? ==> r == NaN
  {
    match v
    case Num(n) => Num(n)
    case Str(s) => if parse(s).Some? then Num(parse(s).value) else NaN
    case _ => NaN
  }
}
