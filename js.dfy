// JavaScript value semantics that the dashboard's arithmetic and form
// handling rely on: truthiness of parsed JSON values, division that may
// produce an infinity or NaN, Math.round/Math.min, and parseFloat on the
// text of a form field.

module Js {

  datatype Option<T> = None | Some(value: T)

  /** A value read out of parsed JSON metadata, as JavaScript sees it.
      Objects and arrays are opaque: only their (true) truthiness matters here. */
  datatype JsVal = Undefined | Null | Bool(b: bool) | Number(n: real) | Str(s: string) | Object

  /** JavaScript truthiness (`if (v)`, `v || d`, `!v`). */
  predicate Truthy(v: JsVal)
  {
    match v
    case Undefined => false
    case Null => false
    case Bool(b) => b
    case Number(n) => n != 0.0
    case Str(s) => s != ""
    case Object => true
  }

  /** `x || 0` on a number the server may have left out of its JSON
      (Go's `omitempty` drops zero values, which JavaScript reads as undefined). */
  function OrZero(x: Option<real>): (r: real)
    ensures x.Some? ==> r == x.value
    ensures x.None? ==> r == 0.0
  {
    if x.Some? then x.value else 0.0
  }

  // ---------------------------------------------------------------------
  // Numbers that may leave the reals: the result of `a / b` in JavaScript.
  // ---------------------------------------------------------------------

  /** A double as far as this program can observe it: a finite value, an
      infinity, or NaN. Finite values are exact reals (rounding is not modelled). */
  datatype Num = Fin(v: real) | PosInf | NegInf | NaN

  /** JavaScript `a / b` on finite operands. */
  function Div(a: real, b: real): (r: Num)
    ensures r.Fin? <==> b != 0.0
    ensures r.Fin? ==> r.v * b == a
    ensures r == PosInf <==> b == 0.0 && a > 0.0
    ensures r == NegInf <==> b == 0.0 && a < 0.0
    ensures r == NaN <==> b == 0.0 && a == 0.0
  {
    if b != 0.0 then Fin(a / b)
    else if a > 0.0 then PosInf
    else if a < 0.0 then NegInf
    else NaN
  }

  /** `x * k` for a positive constant k. */
  function Scale(x: Num, k: real): Num
    requires k > 0.0
  {
    match x
    case Fin(v) => Fin(v * k)
    case _ => x
  }

  /** `x + y` under IEEE rules: opposite infinities give NaN. */
  function Add(x: Num, y: Num): Num
  {
    match (x, y)
    case (NaN, _) => NaN
    case (_, NaN) => NaN
    case (PosInf, NegInf) => NaN
    case (NegInf, PosInf) => NaN
    case (PosInf, _) => PosInf
    case (_, PosInf) => PosInf
    case (NegInf, _) => NegInf
    case (_, NegInf) => NegInf
    case (Fin(a), Fin(b)) => Fin(a + b)
  }

  /** `c - x` for a finite constant c. */
  function SubFrom(c: real, x: Num): Num
  {
    match x
    case Fin(v) => Fin(c - v)
    case PosInf => NegInf
    case NegInf => PosInf
    case NaN => NaN
  }

  /** `x < c`: every comparison with NaN is false. */
  predicate Less(x: Num, c: real)
  {
    match x
    case Fin(v) => v < c
    case PosInf => false
    case NegInf => true
    case NaN => false
  }

  /** `x > c`: every comparison with NaN is false. */
  predicate Greater(x: Num, c: real)
  {
    match x
    case Fin(v) => v > c
    case PosInf => true
    case NegInf => false
    case NaN => false
  }

  /** `Math.min(c, x)`: NaN wins over everything. */
  function MinWith(c: real, x: Num): Num
  {
    match x
    case Fin(v) => Fin(if v < c then v else c)
    case PosInf => Fin(c)
    case NegInf => NegInf
    case NaN => NaN
  }

  /** `Math.round(x)`: the nearest integer, halves rounded up. */
  function Round(x: Num): Num
  {
    match x
    case Fin(v) => Fin((v + 0.5).Floor as real)
    case _ => x
  }

  // ---------------------------------------------------------------------
  // parseFloat and the text of numeric form fields.
  // ---------------------------------------------------------------------

  predicate IsDigit(c: char) { '0' <= c <= '9' }

  predicate AllDigits(s: string) { forall i :: 0 <= i < |s| ==> IsDigit(s[i]) }

  function DigitValue(c: char): real
    requires IsDigit(c)
  {
    (c as int - '0' as int) as real
  }

  /** Length of the longest prefix of s made of decimal digits. */
  function LeadingDigits(s: string): (k: nat)
    ensures k <= |s|
    ensures AllDigits(s[..k])
    ensures k < |s| ==> !IsDigit(s[k])
  {
    if s == [] || !IsDigit(s[0]) then 0
    else
      var k := 1 + LeadingDigits(s[1..]);
      assert s[..k] == [s[0]] + s[1..][..k - 1];
      k
  }

  /** Value of a string of digits read as a whole number. */
  function WholeValue(ds: string): (r: real)
    requires AllDigits(ds)
    ensures r >= 0.0
  {
    if ds == [] then 0.0
    else WholeValue(ds[..|ds| - 1]) * 10.0 + DigitValue(ds[|ds| - 1])
  }

  /** Value of a string of digits read after a decimal point. */
  function FractionValue(ds: string): (r: real)
    requires AllDigits(ds)
    ensures 0.0 <= r <= 1.0
  {
    if ds == [] then 0.0
    else (DigitValue(ds[0]) + FractionValue(ds[1..])) / 10.0
  }

  /** parseFloat: an optional sign, then the longest prefix of the form
      digits[.digits]; NaN (None) when no digit is found. */
  function ParseFloat(s: string): (r: Option<real>)
    ensures s == "" ==> r == None
    ensures r.Some? ==> exists i :: 0 <= i < |s| && IsDigit(s[i])
  {
    var neg := |s| > 0 && s[0] == '-';
    var body := if |s| > 0 && (s[0] == '-' || s[0] == '+') then s[1..] else s;
    var k := LeadingDigits(body);
    var rest := body[k..];
    var after := if |rest| > 0 && rest[0] == '.' then rest[1..] else "";
    var frac := after[..LeadingDigits(after)];
    if k == 0 && frac == "" then None
    else
      var m := WholeValue(body[..k]) + FractionValue(frac);
      assert k > 0 ==> IsDigit(body[0]);
      assert k == 0 ==> IsDigit(after[0]);
      Some(if neg then -m else m)
  }

  /** How many characters of s parseFloat reads: sign, digits, point, digits. */
  function DecimalLength(s: string): (r: nat)
    ensures r <= |s|
  {
    var sign := if |s| > 0 && (s[0] == '-' || s[0] == '+') then 1 else 0;
    var body := s[sign..];
    var k := LeadingDigits(body);
    var rest := body[k..];
    if |rest| > 0 && rest[0] == '.' then sign + k + 1 + LeadingDigits(rest[1..]) else sign + k
  }

  /** `Number(s)` on the strings this model reads: the empty string is 0, a
      decimal numeral read in full is its value, anything else is NaN (None).
      Surrounding white space, exponents, hexadecimal and "Infinity" are not
      modelled. */
  function StringToNumber(s: string): (r: Option<real>)
    ensures r.Some? && s != "" ==> r == ParseFloat(s)
  {
    if s == "" then Some(0.0)
    else if DecimalLength(s) == |s| then ParseFloat(s)
    else None
  }

  /** JavaScript's ToNumber, used by arithmetic on a JSON value (None is NaN).
      Objects and arrays are NaN here (`[]` and one-element arrays are not modelled). */
  function ToNumber(v: JsVal): Option<real>
  {
    match v
    case Undefined => None
    case Null => Some(0.0)
    case Bool(b) => Some(if b then 1.0 else 0.0)
    case Number(n) => Some(n)
    case Str(s) => StringToNumber(s)
    case Object => None
  }

  /** `a / b` when b may be NaN (None). */
  function DivBy(a: real, b: Option<real>): Num
  {
    if b.None? then NaN else Div(a, b.value)
  }

  /** `x || 1` on a finite number. */
  function OrOne(x: real): (r: real)
    ensures r != 0.0
    ensures x != 0.0 ==> r == x
  {
    if x != 0.0 then x else 1.0
  }

  /** The content of a numeric form field: text the user typed, or the text
      `v.toString()` produced when the program filled the field with v. */
  datatype NumText = Typed(text: string) | Shown(v: real)

  const Blank: NumText := Typed("")

  /** JavaScript truthiness of the field's string (`"0"` is truthy). */
  predicate Filled(t: NumText)
  {
    t.Shown? || t.text != ""
  }

  /** parseFloat applied to the field's string; parseFloat(v.toString()) == v. */
  function ParseText(t: NumText): Option<real>
  {
    match t
    case Typed(s) => ParseFloat(s)
    case Shown(v) => Some(v)
  }

  /** `parseFloat(t) > 0`. */
  predicate PositiveText(t: NumText)
  {
    ParseText(t).Some? && ParseText(t).value > 0.0
  }

  /** What an `<input type="number">` can hold: the browser reports either the
      empty string or a valid number. */
  predicate NumberInputText(t: NumText)
  {
    t.Shown? || t.text == "" || ParseFloat(t.text).Some?
  }

  /** Non-empty number-input text always parses: `!amount || parseFloat(amount) <= 0`
      is therefore exactly "not a positive number". */
  lemma NumberInputFilledParses(t: NumText)
    requires NumberInputText(t)
    ensures Filled(t) <==> ParseText(t).Some?
  {
  }

  /** The two-digit case the flow form's scenario types. */
  lemma ParseFortyTwo()
    ensures ParseFloat("42") == Some(42.0)
  {
    assert LeadingDigits("42") == 2 by {
      assert LeadingDigits("2") == 1 by { assert LeadingDigits("") == 0; assert "2"[1..] == ""; }
      assert "42"[1..] == "2";
    }
    assert "42"[..2] == "42";
    assert WholeValue("42") == 42.0 by {
      assert "42"[..1] == "4";
      assert "4"[..0] == "";
    }
    assert "42"[2..] == "";
  }

  lemma ParseFloatExamples()
    ensures ParseFloat("") == None
    ensures ParseFloat("abc") == None
    ensures ParseFloat("-") == None
    ensures ParseFloat("42") == Some(42.0)
    ensures ParseFloat("-7") == Some(-7.0)
    ensures ParseFloat("0") == Some(0.0)
  {
    ParseFortyTwo();
    assert "-7"[1..] == "7";
    assert LeadingDigits("7") == 1 by { assert "7"[1..] == ""; }
    assert "7"[..1] == "7";
    assert WholeValue("7") == 7.0 by { assert "7"[..0] == ""; }
    assert "7"[1..] == "";
    assert LeadingDigits("0") == 1 by { assert "0"[1..] == ""; }
    assert "0"[..1] == "0";
    assert WholeValue("0") == 0.0 by { assert "0"[..0] == ""; }
    assert "0"[1..] == "";
    assert LeadingDigits("abc") == 0;
    assert "abc"[0..] == "abc";
  }
}
