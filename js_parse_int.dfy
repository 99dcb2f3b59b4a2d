/**
 * The radix-10 path of ECMAScript's global `parseInt` (section 19.2.5 of
 * ECMAScript 2022), and the decimal form `String(n)` gives an integer.
 * An unparsable string gives `NaN`, modelled as `None`.
 */
module JsParseInt {
  import opened Wrappers

  /** StrWhiteSpaceChar: the WhiteSpace and LineTerminator code points. */
  predicate IsStrWhiteSpace(c: char)
  {
    var n := c as int;
    // TAB, VT, FF, SP, NBSP, ZWNBSP
    n == 0x09 || n == 0x0B || n == 0x0C || n == 0x20 || n == 0xA0 || n == 0xFEFF
    // the other space separators (category Zs)
    || n == 0x1680 || (0x2000 <= n <= 0x200A) || n == 0x202F || n == 0x205F || n == 0x3000
    // LF, CR, LS, PS
    || n == 0x0A || n == 0x0D || n == 0x2028 || n == 0x2029
  }

  /** Step 2 of `parseInt`: drop leading white space. */
  function TrimStart(s: string): (r: string)
    ensures |r| <= |s| && r == s[|s| - |r|..]
    ensures r == [] || !IsStrWhiteSpace(r[0])
  {
    if s != [] && IsStrWhiteSpace(s[0]) then TrimStart(s[1..]) else s
  }

  predicate IsDigit(c: char)
  {
    '0' <= c <= '9'
  }

  predicate AllDigits(s: string)
  {
    forall i :: 0 <= i < |s| ==> IsDigit(s[i])
  }

  function DigitValue(c: char): (d: nat)
    requires IsDigit(c)
    ensures d < 10
  {
    c as int - '0' as int
  }

  function DigitChar(d: nat): (c: char)
    requires d < 10
    ensures IsDigit(c) && DigitValue(c) == d
  {
    ('0' as int + d) as char
  }

  /** The longest prefix made of decimal digits (step 11 of `parseInt` for radix 10). */
  function LeadingDigits(s: string): (r: string)
    ensures r <= s && AllDigits(r)
    ensures |r| < |s| ==> !IsDigit(s[|r|])
  {
    if s != [] && IsDigit(s[0]) then [s[0]] + LeadingDigits(s[1..]) else []
  }

  /** The mathematical value of a string of decimal digits, most significant first. */
  function DigitsValue(ds: string): nat
    requires AllDigits(ds)
    decreases |ds|
  {
    if ds == [] then 0 else DigitsValue(ds[..|ds| - 1]) * 10 + DigitValue(ds[|ds| - 1])
  }

  /** Steps 11-16 of `parseInt` for radix 10: the value of the leading digits, or `NaN`. */
  function ParseDigits(u: string): (r: Option<nat>)
    ensures u != [] && IsDigit(u[0]) ==> r == Some(DigitsValue(LeadingDigits(u)))
    ensures (u == [] || !IsDigit(u[0])) ==> r.None?
  {
    var ds := LeadingDigits(u);
    if ds == [] then None else Some(DigitsValue(ds))
  }

  /** Steps 3-5 of `parseInt`: an optional sign, then digits. */
  function ParseSigned(t: string): (r: Option<int>)
    ensures t == [] ==> r.None?
    ensures t != [] && IsDigit(t[0]) ==> r == Some(DigitsValue(LeadingDigits(t)))
    ensures |t| >= 2 && t[0] == '-' && IsDigit(t[1]) ==> r == Some(0 - DigitsValue(LeadingDigits(t[1..])) as int)
    ensures t != [] && !IsDigit(t[0]) && t[0] != '-' && t[0] != '+' ==> r.None?
  {
    if t != [] && t[0] == '-' then
      match ParseDigits(t[1..])
      case None => None
      case Some(v) => Some(0 - v as int)
    else if t != [] && t[0] == '+' then
      match ParseDigits(t[1..])
      case None => None
      case Some(v) => Some(v as int)
    else
      match ParseDigits(t)
      case None => None
      case Some(v) => Some(v as int)
  }

  /** `parseInt(s)` with no radix, for inputs without a `0x` prefix. */
  function ParseInt(s: string): (r: Option<int>)
    ensures s == [] ==> r.None?
    ensures s != [] && IsDigit(s[0]) ==> r == Some(DigitsValue(LeadingDigits(s)))
    ensures |s| >= 2 && s[0] == '-' && IsDigit(s[1]) ==> r == Some(0 - DigitsValue(LeadingDigits(s[1..])) as int)
    ensures s != [] && !IsStrWhiteSpace(s[0]) && !IsDigit(s[0]) && s[0] != '-' && s[0] != '+' ==> r.None?
  {
    FirstCharKept(s);
    ParseSigned(TrimStart(s))
  }

  /** White space is all `TrimStart` removes: a string starting with anything else is kept whole. */
  lemma FirstCharKept(s: string)
    ensures s == [] ==> TrimStart(s) == []
    ensures s != [] && !IsStrWhiteSpace(s[0]) ==> TrimStart(s) == s
    ensures s != [] && IsDigit(s[0]) ==> TrimStart(s) == s
    ensures |s| >= 2 && s[0] == '-' ==> TrimStart(s) == s
  {
    if s != [] && (IsDigit(s[0]) || s[0] == '-') {
      assert !IsStrWhiteSpace(s[0]);
    }
  }

  /** Leading white space is skipped: it does not change the result. */
  lemma WhiteSpaceSkipped(s: string)
    requires s != [] && IsStrWhiteSpace(s[0])
    ensures ParseInt(s) == ParseInt(s[1..])
  {
  }

  /** A `+` sign followed by digits gives their value. */
  lemma PlusSignAccepted(s: string)
    requires |s| >= 2 && s[0] == '+' && IsDigit(s[1])
    ensures ParseInt(s) == Some(DigitsValue(LeadingDigits(s[1..])))
  {
  }

  /** A sign that is not followed by a digit gives `NaN`. */
  lemma LoneSignIsNaN(s: string)
    requires s != [] && (s[0] == '-' || s[0] == '+') && (|s| == 1 || !IsDigit(s[1]))
    ensures ParseInt(s).None?
  {
  }

  /** The decimal digits of a natural number, without leading zeros. */
  function NatToString(n: nat): (r: string)
    ensures r != [] && AllDigits(r)
    decreases n
  {
    if n < 10 then [DigitChar(n)] else NatToString(n / 10) + [DigitChar(n % 10)]
  }

  /** `String(n)` for an integer `n`. */
  function IntToString(n: int): string
  {
    if n < 0 then "-" + NatToString(-n) else NatToString(n)
  }

  lemma {:induction false} DigitsValueOfNatToString(n: nat)
    ensures DigitsValue(NatToString(n)) == n
    decreases n
  {
    if n >= 10 {
      DigitsValueOfNatToString(n / 10);
      var s := NatToString(n);
      assert s[..|s| - 1] == NatToString(n / 10);
    }
  }

  lemma {:induction false} LeadingDigitsOfDigits(s: string)
    requires AllDigits(s)
    ensures LeadingDigits(s) == s
  {
    if s != [] {
      LeadingDigitsOfDigits(s[1..]);
      assert s == [s[0]] + s[1..];
    }
  }

  lemma DigitIsNotSpace(c: char)
    requires IsDigit(c) || c == '-'
    ensures !IsStrWhiteSpace(c)
  {
  }

  /** `parseInt` reads back every integer `String` writes. */
  lemma {:induction false} ParseIntRoundTrip(n: int)
    ensures ParseInt(IntToString(n)) == Some(n)
  {
    var m: nat := if n < 0 then -n else n;
    var digits := NatToString(m);
    assert ParseDigits(digits) == Some(m) by {
      DigitsValueOfNatToString(m);
      LeadingDigitsOfDigits(digits);
    }
    var s := IntToString(n);
    if n < 0 {
      assert s == ['-'] + digits;
      DigitIsNotSpace('-');
      assert TrimStart(s) == s;
      assert s[1..] == digits;
    } else {
      assert s == digits;
      DigitIsNotSpace(s[0]);
      assert TrimStart(s) == s;
    }
  }
}
