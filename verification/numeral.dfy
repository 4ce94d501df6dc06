/** Plain decimal numerals: an optional sign, digits, and an optional `.`
    followed by a fraction, with at least one digit in all. This is the part
    of the platform's `toDoubleOrNull` grammar that a wallet amount is typed
    in; on these numerals it returns the value written (up to binary
    rounding). Exponents, "NaN", "Infinity", hexadecimal forms, type suffixes
    and surrounding whitespace, which it also accepts, are not part of this
    parser. */
module Numeral {
  import opened Wrappers
  import opened Text

  predicate IsDigit(c: char) {
    '0' <= c <= '9'
  }

  predicate AllDigits(s: string) {
    forall i :: 0 <= i < |s| ==> IsDigit(s[i])
  }

  /** The value of a run of decimal digits, most significant first. */
  function DigitsValue(s: string): nat
    requires AllDigits(s)
    decreases |s|
  {
    if s == [] then 0
    else 10 * DigitsValue(s[..|s| - 1]) + (s[|s| - 1] as int - '0' as int)
  }

  function Pow10(k: nat): (p: nat)
    ensures p >= 1
  {
    if k == 0 then 1 else 10 * Pow10(k - 1)
  }

  /** The value of the digits after the separator: `0.f`. */
  function FractionValue(f: string): (v: real)
    requires AllDigits(f)
    ensures v >= 0.0
    ensures f == [] ==> v == 0.0
  {
    DigitsValue(f) as real / Pow10(|f|) as real
  }

  /** The value of the numeral with whole part `w` and fraction `f`. */
  function NumeralValue(w: string, f: string): (v: real)
    requires AllDigits(w) && AllDigits(f)
    ensures v >= 0.0
  {
    DigitsValue(w) as real + FractionValue(f)
  }

  /** Where the fraction separator is: the first `.`, or the end of `s`. */
  function DotIndex(s: string): (k: nat)
    ensures k <= |s|
    ensures forall i :: 0 <= i < k ==> s[i] != '.'
    ensures k < |s| ==> s[k] == '.'
  {
    if s == [] then 0 else if s[0] == '.' then 0 else 1 + DotIndex(s[1..])
  }

  /** `digits`, `digits.`, `digits.digits` or `.digits`. */
  function ParseUnsigned(s: string): (r: Option<real>)
    ensures r.Some? ==> r.value >= 0.0
    ensures r.Some? ==> forall i :: 0 <= i < |s| ==> IsDigit(s[i]) || s[i] == '.'
    ensures r.Some? ==> |s| > 0 && (IsDigit(s[0]) || IsDigit(s[|s| - 1]))
  {
    var k := DotIndex(s);
    var whole := s[..k];
    var fraction := if k < |s| then s[k + 1..] else "";
    if |whole| + |fraction| > 0 && AllDigits(whole) && AllDigits(fraction) then
      assert forall i :: k < i < |s| ==> s[i] == fraction[i - k - 1];
      Some(NumeralValue(whole, fraction))
    else
      None
  }

  /** An optional `+` or `-` in front of an unsigned numeral. */
  function Parse(s: string): (r: Option<real>)
    ensures r.Some? ==> forall i :: 0 < i < |s| ==> IsDigit(s[i]) || s[i] == '.'
    ensures r.Some? ==> |s| > 0 && (IsDigit(s[0]) || s[0] == '.' || s[0] == '+' || s[0] == '-')
  {
    if |s| > 0 && (s[0] == '+' || s[0] == '-') then
      match ParseUnsigned(s[1..])
      case None => None
      case Some(v) => Some(if s[0] == '-' then -v else v)
    else
      ParseUnsigned(s)
  }

  /** Blank text is not a number, so a submit of a blank field reports an
      invalid number rather than reaching the ledger. */
  lemma BlankIsNotANumber(s: string)
    requires IsBlank(s)
    ensures Parse(s) == None
  {
  }

  /** A leading `-` negates, a leading `+` changes nothing. */
  lemma SignedNumeral(t: string, v: real)
    requires ParseUnsigned(t) == Some(v)
    ensures Parse("-" + t) == Some(-v)
    ensures Parse("+" + t) == Some(v)
  {
    SignedForm('-', t);
    SignedForm('+', t);
  }

  /** A sign in front of `t` leaves `t` to the unsigned parser. */
  lemma SignedForm(sign: char, t: string)
    requires sign == '+' || sign == '-'
    ensures Parse([sign] + t)
         == match ParseUnsigned(t)
            case None => None
            case Some(v) => Some(if sign == '-' then -v else v)
  {
    var s := [sign] + t;
    assert s[0] == sign;
    assert s[1..] == t;
  }

  /** A negative numeral never denotes a positive amount. */
  lemma NegativeNumeralNotPositive(t: string)
    requires Parse("-" + t).Some?
    ensures Parse("-" + t).value <= 0.0
  {
    SignedForm('-', t);
  }

  /** A numeral has at most one fraction separator. */
  lemma TwoDotsIsNotANumber(s: string, i: int, j: int)
    requires 0 <= i < j < |s| && s[i] == '.' && s[j] == '.'
    ensures Parse(s) == None
  {
    if s[0] == '+' || s[0] == '-' {
      TwoDotsUnsigned(s[1..], i - 1, j - 1);
    } else {
      TwoDotsUnsigned(s, i, j);
    }
  }

  lemma TwoDotsUnsigned(t: string, i: int, j: int)
    requires 0 <= i < j < |t| && t[i] == '.' && t[j] == '.'
    ensures ParseUnsigned(t) == None
  {
    var k := DotIndex(t);
    assert k <= i;
    assert t[k + 1..][j - k - 1] == '.';
  }

  /** Text that starts with a lower-case letter, possibly after a sign, is
      not a number. (The platform parser also rejects it: its letter forms
      start with an upper-case "NaN" or "Infinity", or with a digit.) */
  lemma LeadingLetterIsNotANumber(s: string, i: int)
    requires 0 <= i < |s| && 'a' <= s[i] <= 'z'
    requires i == 0 || (i == 1 && (s[0] == '+' || s[0] == '-'))
    ensures Parse(s) == None
  {
    var c := s[i];
    assert !IsDigit(c) && c != '.' && c != '+' && c != '-';
  }

  /** A run of digits is accepted and denotes the value of its digits. */
  lemma WholeNumeral(w: string)
    requires |w| > 0 && AllDigits(w)
    ensures ParseUnsigned(w) == Some(DigitsValue(w) as real)
    ensures Parse(w) == Some(DigitsValue(w) as real)
  {
    assert forall i :: 0 <= i < |w| ==> w[i] != '.';
    assert DotIndex(w) == |w|;
    assert w[..|w|] == w;
    assert FractionValue("") == 0.0;
    assert NumeralValue(w, "") == DigitsValue(w) as real;
    assert ParseUnsigned(w) == Some(DigitsValue(w) as real);
    assert !(w[0] == '+' || w[0] == '-');
  }

  /** Digits, a dot and digits, with at least one digit in all, are accepted
      and denote the whole part plus the fraction scaled by its length. */
  lemma DecimalNumeral(w: string, f: string)
    requires AllDigits(w) && AllDigits(f) && |w| + |f| > 0
    ensures ParseUnsigned(w + "." + f) == Some(NumeralValue(w, f))
    ensures NumeralValue(w, f) == DigitsValue(w) as real + DigitsValue(f) as real / Pow10(|f|) as real
    ensures Parse(w + "." + f) == Some(NumeralValue(w, f))
  {
    var s := w + "." + f;
    assert s[|w|] == '.';
    assert forall i :: 0 <= i < |w| ==> s[i] != '.';
    assert DotIndex(s) == |w|;
    assert s[..|w|] == w;
    assert s[|w| + 1..] == f;
  }
}
