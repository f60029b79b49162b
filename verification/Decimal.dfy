/** Decimal numerals: printing, reading, and strconv.ParseInt's digit loop. */
module Decimal {
  import opened Text
  import opened Wrappers

  // ----- Go's int64

  const TWO_63 := 0x8000_0000_0000_0000
  const TWO_64 := 0x1_0000_0000_0000_0000

  type Int64 = x: int | -0x8000_0000_0000_0000 <= x < 0x8000_0000_0000_0000

  predicate FitsInt64(x: int) {
    -TWO_63 <= x < TWO_63
  }

  /** Two's complement wrap-around. */
  function Wrap(x: int): (r: Int64)
    ensures FitsInt64(x) ==> r == x
    ensures TWO_63 <= x < TWO_63 + TWO_64 ==> r == x - TWO_64
  {
    (x + TWO_63) % TWO_64 - TWO_63
  }

  // ----- numerals

  function DigitChar(d: nat): (c: char)
    requires d < 10
    ensures IsDigit(c)
  {
    ('0' as int + d) as char
  }

  function DigitsOf(n: nat): (s: string)
    ensures s != "" && AllDigits(s)
    ensures |s| > 1 ==> s[0] != '0'
  {
    if n < 10 then [DigitChar(n)] else DigitsOf(n / 10) + [DigitChar(n % 10)]
  }

  predicate AllDigits(s: string) {
    forall i :: 0 <= i < |s| ==> IsDigit(s[i])
  }

  function Value(s: string): (n: nat)
    requires AllDigits(s)
  {
    if s == "" then 0 else 10 * Value(s[..|s| - 1]) + (s[|s| - 1] as int - '0' as int)
  }

  lemma {:induction false} ValueOfDigits(n: nat)
    ensures Value(DigitsOf(n)) == n
  {
    var s := DigitsOf(n);
    if n >= 10 {
      ValueOfDigits(n / 10);
      assert s[..|s| - 1] == DigitsOf(n / 10);
    }
  }

  lemma {:induction false} ValueGrows(s: string, i: nat)
    requires AllDigits(s) && i <= |s|
    ensures Value(s[..i]) <= Value(s)
  {
    if i < |s| {
      assert s[..|s| - 1][..i] == s[..i];
      ValueGrows(s[..|s| - 1], i);
    } else {
      assert s[..i] == s;
    }
  }

  // ----- signed integers

  function Magnitude(s: string): string {
    if s != "" && (s[0] == '-' || s[0] == '+') then s[1..] else s
  }

  /** The integer a numeral denotes, of any length; None for anything else. */
  function IntegerOf(s: string): Option<int> {
    var digits := Magnitude(s);
    if digits == "" || !AllDigits(digits) then None
    else
      var v: int := Value(digits);
      Some(if s[0] == '-' then -v else v)
  }

  function Print(v: int): string {
    if v < 0 then "-" + DigitsOf(-v) else DigitsOf(v)
  }

  lemma PrintReadsBack(v: int)
    ensures IntegerOf(Print(v)) == Some(v)
  {
    hide DigitsOf, Value;
    if v < 0 {
      ValueOfDigits(-v);
      assert Magnitude(Print(v)) == DigitsOf(-v);
    } else {
      ValueOfDigits(v);
    }
  }

  // ----- strconv.ParseInt(s, 10, 64)

  const CUTOFF := 1844674407370955162  // the largest uint64 / 10, plus 1

  /** The unsigned digit loop: an overflow of uint64 stops it at once, whatever follows. */
  method ParseUint64(s: string) returns (r: Option<nat>)
    ensures r.Some? <==> s != "" && AllDigits(s) && Value(s) < TWO_64
    ensures r.Some? ==> r.value == Value(s)
  {
    if s == "" {
      return None;
    }
    var n: nat := 0;
    for i := 0 to |s|
      invariant AllDigits(s[..i]) && n == Value(s[..i]) < TWO_64
    {
      if !IsDigit(s[i]) {
        return None;
      }
      assert s[..i + 1][..i] == s[..i];
      assert AllDigits(s[..i + 1]);
      var d := s[i] as int - '0' as int;
      if n >= CUTOFF {
        OverflowStays(s, i + 1);
        return None;
      }
      n := n * 10;
      var n1 := (n + d) % TWO_64;
      if n1 < n {
        OverflowStays(s, i + 1);
        return None;
      }
      n := n1;
    }
    assert s[..|s|] == s;
    return Some(n);
  }

  lemma OverflowStays(s: string, i: nat)
    requires i <= |s| && AllDigits(s[..i]) && Value(s[..i]) >= TWO_64
    ensures AllDigits(s) ==> Value(s) >= TWO_64
  {
    if AllDigits(s) {
      ValueGrows(s, i);
    }
  }

  /** Total on numerals of any length: the value exactly when it fits in an int64. */
  method ParseInt64(s: string) returns (r: Option<Int64>)
    ensures r.Some? <==> IntegerOf(s).Some? && FitsInt64(IntegerOf(s).value)
    ensures r.Some? ==> r.value == IntegerOf(s).value
  {
    if s == "" {
      return None;
    }
    var un := ParseUint64(Magnitude(s));
    match un {
      case None => return None;
      case Some(n) =>
        var v: int := n;
        if s[0] == '-' {
          v := -v;
        }
        return if FitsInt64(v) then Some(v) else None;
    }
  }
}
