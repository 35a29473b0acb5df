/** `Number(s)` on the strings the registration form submits: optional white
    space, an optional sign and a decimal literal with an optional fraction.
    `None` stands for `NaN`. Exponents, hexadecimal, binary and octal
    literals and `Infinity` are not modelled. */
module JsNumber {
  import opened Common
  import opened Text

  predicate IsDigit(c: char) {
    '0' <= c <= '9'
  }

  predicate AllDigits(s: string) {
    forall i :: 0 <= i < |s| ==> IsDigit(s[i])
  }

  /** The value of a run of decimal digits. */
  function DigitsValue(s: string): nat
    requires AllDigits(s)
  {
    if s == [] then 0 else DigitsValue(s[..|s| - 1]) * 10 + (s[|s| - 1] as int - '0' as int)
  }

  function Pow10(k: nat): (r: nat)
    ensures r >= 1
  {
    if k == 0 then 1 else 10 * Pow10(k - 1)
  }

  /** The number of leading decimal digits of `t`. */
  function DigitRun(t: string): (k: nat)
    ensures k <= |t| && AllDigits(t[..k])
    ensures k < |t| ==> !IsDigit(t[k])
    ensures AllDigits(t) ==> k == |t|
  {
    if t == [] || !IsDigit(t[0]) then 0
    else
      var k := 1 + DigitRun(t[1..]);
      assert forall i :: 1 <= i < k ==> t[..k][i] == t[1..][..k - 1][i - 1];
      k
  }

  /** An unsigned decimal literal: `12`, `12.5`, `12.` or `.5`. */
  function UnsignedDecimal(t: string): (r: Option<real>)
    ensures r.Some? ==> r.value >= 0.0
  {
    var k := DigitRun(t);
    if k == |t| then
      if t == [] then None else Some(DigitsValue(t) as real)
    else if t[k] == '.' && AllDigits(t[k + 1..]) && (k > 0 || k + 1 < |t|) then
      var frac := t[k + 1..];
      Some(DigitsValue(t[..k]) as real + (DigitsValue(frac) as real) / (Pow10(|frac|) as real))
    else None
  }

  /** `Number(s)`, with `None` for `NaN`; a blank string is `0`. */
  function Number(s: string): Option<real> {
    var t := Trim(s);
    if t == [] then Some(0.0)
    else if t[0] == '-' then
      match UnsignedDecimal(t[1..])
      case Some(v) => Some(-v)
      case None => None
    else if t[0] == '+' then UnsignedDecimal(t[1..])
    else UnsignedDecimal(t)
  }

  /** `isNaN(Number(s))`. */
  predicate IsNaN(s: string) {
    Number(s).None?
  }

  /** The decimal spelling of a natural number, as `String(n)` writes it. */
  function NatToString(n: nat): string {
    if n < 10 then [('0' as int + n) as char]
    else NatToString(n / 10) + [('0' as int + n % 10) as char]
  }

  lemma {:induction false} NatToStringDigits(n: nat)
    ensures AllDigits(NatToString(n)) && NatToString(n) != []
    ensures DigitsValue(NatToString(n)) == n
  {
    if n >= 10 {
      NatToStringDigits(n / 10);
      var s := NatToString(n);
      assert s[..|s| - 1] == NatToString(n / 10);
    }
  }

  /** Reading back the spelling of a natural number gives that number. */
  lemma NumberOfNatToString(n: nat)
    ensures Number(NatToString(n)) == Some(n as real)
  {
    NatToStringDigits(n);
    var s := NatToString(n);
    assert NoSpace(s) by {
      forall i | 0 <= i < |s| ensures !IsSpace(s[i]) {
        assert IsDigit(s[i]);
      }
    }
    assert Trim(s) == s;
    assert s[0] != '-' && s[0] != '+' by {
      assert IsDigit(s[0]);
    }
    var k := DigitRun(s);
    assert k == |s|;
    assert UnsignedDecimal(s) == Some(DigitsValue(s) as real);
  }

  /** Only a leading minus sign makes the value negative. */
  lemma NegativeNeedsMinus(s: string)
    requires Number(s).Some? && Number(s).value < 0.0
    ensures Trim(s) != [] && Trim(s)[0] == '-'
  {
  }
}
