/** strconv.Atoi and the decimal rendering of fmt's %d verb on Go's 64-bit int. */
module Strconv {
  import opened Errors

  const MinInt: int := -0x8000_0000_0000_0000
  const MaxInt: int :=  0x7FFF_FFFF_FFFF_FFFF

  predicate IsDigit(c: char) {
    '0' <= c <= '9'
  }

  predicate AllDigits(s: string) {
    forall i :: 0 <= i < |s| ==> IsDigit(s[i])
  }

  function DigitChar(d: nat): (c: char)
    requires d < 10
    ensures IsDigit(c)
  {
    (('0' as int) + d) as char
  }

  function DigitValue(c: char): (d: nat)
    requires IsDigit(c)
    ensures d < 10
  {
    (c as int) - ('0' as int)
  }

  /** The shortest decimal rendering of a natural number. */
  function FormatNat(n: nat): (s: string)
    decreases n
  {
    if n < 10 then [DigitChar(n)] else FormatNat(n / 10) + [DigitChar(n % 10)]
  }

  /** fmt.Sprintf("%d", x) for an int x (the same text as strconv.Itoa). */
  function Itoa(x: int): string {
    if x < 0 then "-" + FormatNat(-x) else FormatNat(x)
  }

  /** The value of a string of decimal digits, leading zeros allowed. */
  function DigitsValue(s: string): nat
    requires AllDigits(s)
  {
    if s == [] then 0 else DigitsValue(s[..|s| - 1]) * 10 + DigitValue(s[|s| - 1])
  }

  /** strconv.Atoi: an optional sign followed by at least one decimal digit,
      and a value that fits Go's 64-bit int; any other input is refused. */
  function Atoi(s: string): (r: Result<int>)
    ensures r.Ok? ==> MinInt <= r.value <= MaxInt
    ensures r.Err? ==> r.error == InvalidNumber(s)
    ensures s == [] ==> r.Err?
  {
    var signed := |s| > 0 && (s[0] == '+' || s[0] == '-');
    var digits := if signed then s[1..] else s;
    if digits == [] || !AllDigits(digits) then Err(InvalidNumber(s))
    else
      var v: int := if signed && s[0] == '-' then 0 - (DigitsValue(digits) as int) else DigitsValue(digits);
      if v < MinInt || v > MaxInt then Err(InvalidNumber(s)) else Ok(v)
  }

  /** Atoi accepts only an optional sign followed by at least one decimal digit. */
  lemma AtoiAcceptsOnlyDecimal(s: string)
    requires Atoi(s).Ok?
    ensures |s| >= 1
    ensures forall i :: 0 <= i < |s| ==> IsDigit(s[i]) || (i == 0 && s[i] in "+-")
    ensures exists i :: 0 <= i < |s| && IsDigit(s[i])
  {
    if !(s[0] == '+' || s[0] == '-') {
      assert AllDigits(s);
    } else {
      assert AllDigits(s[1..]);
      forall i | 1 <= i < |s| ensures IsDigit(s[i]) { assert s[1..][i - 1] == s[i]; }
      assert |s| >= 2;
    }
    assert IsDigit(s[|s| - 1]);
  }

  lemma {:induction false} FormatNatDigits(n: nat)
    ensures |FormatNat(n)| >= 1 && AllDigits(FormatNat(n))
    ensures DigitsValue(FormatNat(n)) == n
    decreases n
  {
    if n >= 10 {
      FormatNatDigits(n / 10);
      var s := FormatNat(n);
      assert s[..|s| - 1] == FormatNat(n / 10);
    }
  }

  /** Unsigned digits within range are read as their value. */
  lemma AtoiOfDigits(s: string)
    requires |s| >= 1 && AllDigits(s) && DigitsValue(s) <= MaxInt
    ensures Atoi(s) == Ok(DigitsValue(s) as int)
  {
    assert IsDigit(s[0]);
  }

  /** A minus sign and digits within range are read as the negated value. */
  lemma AtoiOfNegated(s: string)
    requires |s| >= 1 && AllDigits(s) && DigitsValue(s) <= -MinInt
    ensures Atoi("-" + s) == Ok(0 - DigitsValue(s) as int)
  {
    var t := "-" + s;
    assert t[0] == '-';
    assert t[1..] == s;
  }

  /** A record id stored with %d comes back unchanged through Atoi. */
  lemma {:induction false} AtoiItoa(x: int)
    requires MinInt <= x <= MaxInt
    ensures Atoi(Itoa(x)) == Ok(x)
  {
    if x < 0 {
      FormatNatDigits(-x);
      AtoiOfNegated(FormatNat(-x));
    } else {
      FormatNatDigits(x);
      AtoiOfDigits(FormatNat(x));
    }
  }
}
