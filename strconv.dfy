/** Go's strconv.ParseInt (base 10, 64 bits) and strconv.ParseBool, with FormatInt as the
    partner of ParseInt in round-trip lemmas. */
module Strconv {
  import opened Base

  predicate IsDigit(c: char) { '0' <= c <= '9' }

  function DigitOf(c: char): (d: nat)
    requires IsDigit(c)
    ensures d < 10
  {
    (c as int) - ('0' as int)
  }

  function DigitChar(d: nat): (c: char)
    requires d < 10
    ensures IsDigit(c) && DigitOf(c) == d
  {
    (('0' as int) + d) as char
  }

  /** The value of a non-empty run of decimal digits; None as soon as any character
      is not a digit (base 10 admits no underscores and no letters). */
  function DigitsValue(ds: string): (r: Option<nat>)
    ensures r.Some? <==> ds != [] && forall i :: 0 <= i < |ds| ==> IsDigit(ds[i])
    decreases |ds|
  {
    if ds == [] then None
    else if !IsDigit(ds[|ds| - 1]) then None
    else if |ds| == 1 then Some(DigitOf(ds[0]))
    else
      match DigitsValue(ds[..|ds| - 1])
      case None => None
      case Some(n) => Some(10 * n + DigitOf(ds[|ds| - 1]))
  }

  /** strconv.ParseInt(s, 10, 64): an optional '+' or '-', then at least one digit, and
      a value that fits in int64. A syntax error and a range error both yield None. */
  function ParseInt(s: string): (r: Option<int64>)
    ensures s == "" || s == "+" || s == "-" ==> r.None?
    ensures r.Some? ==> forall i :: 0 <= i < |s| ==> IsDigit(s[i]) || (i == 0 && (s[0] == '+' || s[0] == '-'))
    ensures r.Some? && r.value < 0 ==> s[0] == '-'
  {
    if s == "" then None
    else
      var neg := s[0] == '-';
      var digits := if s[0] == '+' || s[0] == '-' then s[1..] else s;
      match DigitsValue(digits)
      case None => None
      case Some(u) =>
        var v: int := if neg then -(u as int) else u;
        if Int64Min <= v <= Int64Max then Some(v) else None
  }

  /** strconv.ParseBool: exactly twelve spellings are accepted. */
  function ParseBool(s: string): (r: Option<bool>)
    ensures r == Some(true) <==> s in {"1", "t", "T", "TRUE", "true", "True"}
    ensures r == Some(false) <==> s in {"0", "f", "F", "FALSE", "false", "False"}
  {
    match s
    case "1" => Some(true)
    case "t" => Some(true)
    case "T" => Some(true)
    case "TRUE" => Some(true)
    case "true" => Some(true)
    case "True" => Some(true)
    case "0" => Some(false)
    case "f" => Some(false)
    case "F" => Some(false)
    case "FALSE" => Some(false)
    case "false" => Some(false)
    case "False" => Some(false)
    case _ => None
  }

  /** Decimal rendering of a natural number, most significant digit first, no leading zeros. */
  function FormatNat(n: nat): (s: string)
    ensures s != []
    decreases n
  {
    if n < 10 then [DigitChar(n)] else FormatNat(n / 10) + [DigitChar(n % 10)]
  }

  /** strconv.FormatInt(n, 10): a '-' in front of negative numbers. */
  function FormatInt(n: int): (s: string)
    ensures s != []
  {
    if n < 0 then "-" + FormatNat(-n) else FormatNat(n)
  }

  lemma {:induction false} DigitsValueOfFormatNat(n: nat)
    ensures DigitsValue(FormatNat(n)) == Some(n)
    decreases n
  {
    if n >= 10 {
      var s := FormatNat(n / 10);
      var c := DigitChar(n % 10);
      DigitsValueOfFormatNat(n / 10);
      assert FormatNat(n) == s + [c];
      assert (s + [c])[..|s + [c]| - 1] == s;
    }
  }

  /** ParseInt of an unsigned digit run is its value, when that fits. */
  lemma ParseIntOfDigits(ds: string)
    requires DigitsValue(ds).Some?
    ensures ParseInt(ds) == if DigitsValue(ds).value <= Int64Max then Some(DigitsValue(ds).value) else None
  {
    assert IsDigit(ds[0]);
  }

  /** ParseInt of '-' and a digit run is the negated value, when that fits. */
  lemma ParseIntOfNegative(ds: string)
    requires DigitsValue(ds).Some?
    ensures ParseInt("-" + ds) ==
      var v: int := -(DigitsValue(ds).value as int); if Int64Min <= v then Some(v) else None
  {
    assert ("-" + ds)[0] == '-';
    assert ("-" + ds)[1..] == ds;
  }

  /** An explicit '+' sign changes nothing: "+" and a digit run parse as the run alone. */
  lemma ParseIntOfPlus(ds: string)
    requires DigitsValue(ds).Some?
    ensures ParseInt("+" + ds) == ParseInt(ds)
  {
    assert ("+" + ds)[0] == '+';
    assert ("+" + ds)[1..] == ds;
    assert IsDigit(ds[0]);
  }

  /** Every int64 survives FormatInt followed by ParseInt. */
  lemma ParseIntOfFormatInt(n: int64)
    ensures ParseInt(FormatInt(n)) == Some(n)
  {
    if n < 0 {
      var m: nat := -(n as int);
      DigitsValueOfFormatNat(m);
      ParseIntOfNegative(FormatNat(m));
    } else {
      DigitsValueOfFormatNat(n);
      ParseIntOfDigits(FormatNat(n));
    }
  }

  /** A well-formed decimal whose value exceeds int64 is rejected (strconv's range error). */
  lemma ParseIntRejectsOverflow(n: nat)
    requires n > Int64Max
    ensures ParseInt(FormatNat(n)) == None
    ensures ParseInt("-" + FormatNat(n + 1)) == None
  {
    DigitsValueOfFormatNat(n);
    DigitsValueOfFormatNat(n + 1);
    ParseIntOfDigits(FormatNat(n));
    ParseIntOfNegative(FormatNat(n + 1));
  }
}
