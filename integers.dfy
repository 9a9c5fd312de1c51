/** Python's `int(...)` on the JSON values a tool receives as a count, and its
    inverse `str(...)` on integers. */
module Integers {
  import opened Values

  predicate IsDigit(c: char) {
    '0' <= c <= '9'
  }

  /** A non-empty run of decimal digits. */
  predicate IsNumeral(s: string) {
    |s| > 0 && forall i :: 0 <= i < |s| ==> IsDigit(s[i])
  }

  function DigitValue(c: char): nat
    requires IsDigit(c)
  {
    c as int - '0' as int
  }

  function DigitChar(d: nat): (c: char)
    requires d < 10
    ensures IsDigit(c) && DigitValue(c) == d
  {
    ('0' as int + d) as char
  }

  /** The number a run of decimal digits denotes (leading zeros allowed). */
  function NumeralValue(s: string): nat
    requires IsNumeral(s)
    decreases |s|
  {
    if |s| == 1 then DigitValue(s[0])
    else NumeralValue(s[..|s| - 1]) * 10 + DigitValue(s[|s| - 1])
  }

  /** `int(s)` for a string: an optional sign followed by decimal digits;
      anything else raises ValueError. */
  function ParseInt(s: string): (r: Result<int>)
    ensures r.Ok? <==> IsNumeral(s) || (|s| > 1 && (s[0] == '-' || s[0] == '+') && IsNumeral(s[1..]))
  {
    if |s| > 0 && (s[0] == '-' || s[0] == '+') then
      if IsNumeral(s[1..]) then
        var magnitude: int := NumeralValue(s[1..]);
        Ok(if s[0] == '-' then -magnitude else magnitude)
      else Err(ValueError)
    else if IsNumeral(s) then Ok(NumeralValue(s))
    else Err(ValueError)
  }

  /** `int(v)` for a JSON value: strings are parsed, numbers kept, booleans
      become 0 or 1; None, lists and dicts raise TypeError. */
  function ToInt(v: Value): (r: Result<int>)
    ensures v.Num? ==> r == Ok(v.n)
    ensures v.Bool? ==> r == Ok(if v.b then 1 else 0)
    ensures v.Str? ==> r == ParseInt(v.s)
    ensures v.Null? || v.Arr? || v.Obj? ==> r == Err(TypeError)
  {
    match v
    case Num(n) => Ok(n)
    case Bool(b) => Ok(if b then 1 else 0)
    case Str(s) => ParseInt(s)
    case _ => Err(TypeError)
  }

  /** `str(n)` for a natural number. */
  function Decimal(n: nat): (s: string)
    ensures IsNumeral(s)
    decreases n
  {
    if n < 10 then [DigitChar(n)] else Decimal(n / 10) + [DigitChar(n % 10)]
  }

  /** `str(n)` for an integer. */
  function Show(n: int): string {
    if n < 0 then "-" + Decimal(-n) else Decimal(n)
  }

  lemma {:induction false} DecimalValue(n: nat)
    ensures NumeralValue(Decimal(n)) == n
    decreases n
  {
    if n >= 10 {
      var s := Decimal(n);
      assert s[..|s| - 1] == Decimal(n / 10);
      DecimalValue(n / 10);
    }
  }

  /** `int(str(n)) == n`: parsing inverts printing. */
  lemma ParseShow(n: int)
    ensures ParseInt(Show(n)) == Ok(n)
  {
    if n < 0 {
      DecimalValue(-n);
      assert Show(n)[1..] == Decimal(-n);
    } else {
      DecimalValue(n);
    }
  }

  /** `int(v)` inverts `str(n)` on a tool argument, and keeps a JSON number:
      a count the assistant sends as text or as a number means the same. */
  lemma ToIntShow(n: int)
    ensures ToInt(Str(Show(n))) == Ok(n)
    ensures ToInt(Num(n)) == ToInt(Str(Show(n)))
  {
    ParseShow(n);
  }
}
