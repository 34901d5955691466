/** The signal vocabulary shared by every device: JavaScript payloads, the
    parts of `===` and `Number()` the devices rely on, and decimal text. */
module Signals {

  /** A payload travelling between nodes. Numbers are integers here;
      `NaN` is kept because `Number(undefined)` produces it and because
      `NaN === NaN` is false. */
  datatype Value = Undef | Null | NaN | Num(n: int) | Str(s: string) | Bool(b: bool)

  datatype Option<T> = None | Some(value: T)

  /** JavaScript strict equality `===` on payloads. */
  predicate StrictEq(a: Value, b: Value)
  {
    a == b && !a.NaN?
  }

  /** `typeof v === 'number'` */
  predicate IsNumber(v: Value)
  {
    v.Num? || v.NaN?
  }

  /** A gate payload with `undefined` replaced by the default pulse 1. */
  function GateOr1(v: Value): (r: Value)
    ensures r != Undef
    ensures v != Undef ==> r == v
  {
    if v == Undef then Num(1) else v
  }

  /** Looking up a key that is absent yields `undefined`. */
  function Lookup<K>(m: map<K, Value>, k: K): (r: Value)
    ensures k !in m ==> r == Undef
    ensures k in m ==> r == m[k]
  {
    if k in m then m[k] else Undef
  }

  predicate IsDigit(c: char)
  {
    '0' <= c <= '9'
  }

  predicate AllDigits(s: string)
  {
    forall i :: 0 <= i < |s| ==> IsDigit(s[i])
  }

  function DigitChar(d: nat): (c: char)
    requires d < 10
    ensures IsDigit(c)
  {
    "0123456789"[d]
  }

  /** The value of a string of decimal digits, most significant first. */
  function DecimalValue(s: string): (n: nat)
    requires AllDigits(s)
  {
    if |s| == 0 then 0
    else DecimalValue(s[..|s| - 1]) * 10 + ((s[|s| - 1] as int) - ('0' as int))
  }

  /** `String(n)` for a natural number: its shortest decimal spelling. */
  function NatToString(n: nat): (s: string)
    ensures |s| >= 1 && AllDigits(s)
    ensures |s| > 1 ==> s[0] != '0'
  {
    if n < 10 then [DigitChar(n)] else NatToString(n / 10) + [DigitChar(n % 10)]
  }

  lemma {:induction false} DecimalRoundTrip(n: nat)
    ensures DecimalValue(NatToString(n)) == n
  {
    var s := NatToString(n);
    if n >= 10 {
      DecimalRoundTrip(n / 10);
      assert s[..|s| - 1] == NatToString(n / 10);
    }
  }

  /** JavaScript `Number(v)`. Strings are read as plain decimal digits
      only: signs, blanks, fractions and hexadecimal are not modelled. */
  function ToNumber(v: Value): (r: Value)
    ensures IsNumber(r)
    ensures v.Num? ==> r == v
    ensures v == Undef ==> r == NaN
  {
    match v
    case Undef => NaN
    case Null => Num(0)
    case NaN => NaN
    case Num(_) => v
    case Bool(b) => Num(if b then 1 else 0)
    case Str(s) =>
      if |s| == 0 then Num(0)
      else if AllDigits(s) then Num(DecimalValue(s))
      else NaN
  }

  /** `Number(String(n))` gives `n` back. */
  lemma NumberOfDecimalText(n: nat)
    ensures ToNumber(Str(NatToString(n))) == Num(n)
  {
    DecimalRoundTrip(n);
  }
}
