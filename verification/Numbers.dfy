/** Printing and parsing numbers, with the widths of the C integers. */
module Numbers {
  import opened Shared
  import opened Packages

  const INT_RANGE: int := 0x8000_0000
  const UINT64_RANGE: nat := 0x1_0000_0000_0000_0000

  const DIGITS: string := "0123456789"

  predicate IsDigit(c: char) { '0' <= c <= '9' }

  function DigitValue(c: char): nat
    requires IsDigit(c)
  {
    (c - '0') as nat
  }

  function Digits(n: nat): (r: string)
    ensures r != "" && forall c :: c in r ==> IsDigit(c)
  {
    if n < 10 then [DIGITS[n]] else Digits(n / 10) + [DIGITS[n % 10]]
  }

  /** An unsigned 32-bit counter printed as a signed one. */
  function PrintAsInt(n: nat): string
    requires n < UINT_RANGE
  {
    if n < INT_RANGE then Digits(n) else "-" + Digits(UINT_RANGE - n)
  }

  function DigitsValue(s: string): nat
    requires forall c :: c in s ==> IsDigit(c)
  {
    if s == "" then 0 else 10 * DigitsValue(s[..|s| - 1]) + DigitValue(s[|s| - 1])
  }

  function LeadingDigits(s: string): (r: string)
    ensures forall c :: c in r ==> IsDigit(c)
  {
    if s == "" || !IsDigit(s[0]) then "" else [s[0]] + LeadingDigits(s[1..])
  }

  function SkipSpaces(s: string): string {
    if s != "" && s[0] in " \t\n\r\U{000B}\U{000C}" then SkipSpaces(s[1..]) else s
  }

  /** The sign, if any, and the digits that follow; text without a digit is no number, and text
      after the digits is ignored. */
  function SignedDigits(text: string): (r: (bool, string))
    ensures forall c :: c in r.1 ==> IsDigit(c)
  {
    var s := SkipSpaces(text);
    if s != "" && s[0] == '-' then (true, LeadingDigits(s[1..]))
    else if s != "" && s[0] == '+' then (false, LeadingDigits(s[1..]))
    else (false, LeadingDigits(s))
  }

  /** Too large a number saturates, a negative one wraps around. */
  function ToUint64(negative: bool, n: nat): (r: nat)
    ensures r < UINT64_RANGE
  {
    if n >= UINT64_RANGE then UINT64_RANGE - 1
    else if negative && n > 0 then UINT64_RANGE - n
    else n
  }

  function StrToUint64(text: string): Option<nat> {
    var (negative, digits) := SignedDigits(text);
    if digits == "" then None else Some(ToUint64(negative, DigitsValue(digits)))
  }

  function StrToUint(text: string): Option<nat> {
    var r := StrToUint64(text);
    if r.Some? && r.value >= UINT_RANGE then None else r
  }

  function StrToInt(text: string): Option<int> {
    var (negative, digits) := SignedDigits(text);
    if digits == "" then None
    else
      var n: int := DigitsValue(digits);
      var signed: int := if negative then -n else n;
      if -INT_RANGE <= signed < INT_RANGE then Some(signed) else None
  }

  // ----- printing and parsing undo each other -----

  lemma {:induction false} DigitsHaveValue(n: nat)
    ensures DigitsValue(Digits(n)) == n
  {
    if n >= 10 {
      DigitsHaveValue(n / 10);
      var s := Digits(n);
      assert s[..|s| - 1] == Digits(n / 10);
    }
  }

  lemma {:induction false} AllDigitsLead(s: string)
    requires forall c :: c in s ==> IsDigit(c)
    ensures LeadingDigits(s) == s
  {
    if s != "" {
      assert s[0] in s;
      assert forall c :: c in s[1..] ==> c in s;
      AllDigitsLead(s[1..]);
    }
  }

  lemma {:induction false} DigitsParse(n: nat)
    ensures SignedDigits(Digits(n)) == (false, Digits(n)) && SignedDigits("-" + Digits(n)) == (true, Digits(n))
  {
    var s := Digits(n);
    assert s[0] in s;
    AllDigitsLead(s);
    assert ("-" + s)[1..] == s;
  }

  lemma {:induction false} DigitsToUint64(n: nat)
    requires n < UINT64_RANGE
    ensures StrToUint64(Digits(n)) == Some(n)
    ensures n > 0 ==> StrToUint64("-" + Digits(n)) == Some(UINT64_RANGE - n)
  {
    DigitsParse(n);
    DigitsHaveValue(n);
  }

  /** A printed counter is read back exactly when it is below 2^31; above, nothing is read. */
  lemma {:induction false} CounterReadBack(n: nat)
    requires n < UINT_RANGE
    ensures StrToUint(PrintAsInt(n)) == if n < INT_RANGE then Some(n) else None
  {
    if n < INT_RANGE { DigitsToUint64(n); } else { DigitsToUint64(UINT_RANGE - n); }
  }

  lemma {:induction false} PrintInjective(m: nat, n: nat)
    requires m < UINT_RANGE && n < UINT_RANGE && PrintAsInt(m) == PrintAsInt(n)
    ensures m == n
  {
    PrintToUint64(m);
    PrintToUint64(n);
  }

  lemma {:induction false} PrintToUint64(n: nat)
    requires n < UINT_RANGE
    ensures StrToUint64(PrintAsInt(n)) == Some(if n < INT_RANGE then n else UINT64_RANGE - UINT_RANGE + n)
  {
    if n < INT_RANGE {
      DigitsToUint64(n);
      assert PrintAsInt(n) == Digits(n);
    } else {
      var m: nat := UINT_RANGE - n;
      DigitsToUint64(m);
      assert PrintAsInt(n) == "-" + Digits(m);
    }
  }

  lemma {:induction false} PrintHasNoUnderscore(n: nat)
    requires n < UINT_RANGE
    ensures '_' !in PrintAsInt(n)
  {
    var s := Digits(UINT_RANGE - n);
    assert forall c :: c in "-" + s ==> c == '-' || c in s;
  }

  // ----- the careful string length -----

  /** The length of a C string, of which `text` holds the bytes before its end, counted up to a
      limit. The promised value, the shorter of the two, is given exactly unless the limit is zero
      and the text is not empty. */
  method StrLen(text: string, limit: nat) returns (n: nat)
    ensures n == (if |text| < limit then |text| else limit) <==> limit >= 1 || text == ""
    ensures n <= |text| && n <= limit + 1
  {
    if text == "" {
      return 0;
    }
    n := 1;
    while n < limit
      invariant 1 <= n <= |text| && (n <= limit || (n == 1 && limit == 0))
    {
      if n == |text| {
        break;
      }
      n := n + 1;
    }
  }
}
