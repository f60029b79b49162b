/** formatMs: a millisecond offset printed as seconds with three decimals. */
module Format {
  import opened Text
  import opened Decimal

  // The largest millisecond count whose nanoseconds fit in an int64.
  const LONGEST_MS := 9223372036854

  /** time.Duration(ms) * time.Millisecond, in seconds; the product wraps. */
  function DurationSeconds(ms: Int64): real {
    Wrap(ms * 1_000_000) as real / 1_000_000_000.0
  }

  /** The nearest integer to y >= 0, ties to even. */
  function Nearest(y: real): (n: nat)
    requires y >= 0.0
    ensures n as real - 0.5 <= y <= n as real + 0.5
  {
    var f := y.Floor;
    var d := y - f as real;
    if d < 0.5 || (d == 0.5 && f % 2 == 0) then f else f + 1
  }

  function Pad3(n: nat): (s: string)
    requires n < 1000
    ensures |s| == 3 && AllDigits(s)
  {
    [DigitChar(n / 100), DigitChar(n / 10 % 10), DigitChar(n % 10)]
  }

  function PrintThousandths(n: nat): string {
    DigitsOf(n / 1000) + "." + Pad3(n % 1000)
  }

  /** strconv.FormatFloat(x, 'f', 3, 64) */
  function FormatFixed3(x: real): string {
    if x < 0.0 then "-" + PrintThousandths(Nearest(-x * 1000.0))
    else PrintThousandths(Nearest(x * 1000.0))
  }

  function FormatMs(ms: Int64): string {
    FormatFixed3(DurationSeconds(if ms < 0 then 0 else ms))
  }

  // ----- reading back

  predicate IsThousandths(s: string) {
    |s| >= 5 && s[|s| - 4] == '.' && AllDigits(s[..|s| - 4]) && AllDigits(s[|s| - 3..])
  }

  function ReadThousandths(s: string): nat
    requires IsThousandths(s)
  {
    Value(s[..|s| - 4]) * 1000 + Value(s[|s| - 3..])
  }

  predicate IsSeconds(s: string) {
    IsThousandths(s) || (s != "" && s[0] == '-' && IsThousandths(s[1..]))
  }

  /** The milliseconds that a seconds argument denotes. */
  function ReadMs(s: string): int
    requires IsSeconds(s)
  {
    if IsThousandths(s) then ReadThousandths(s)
    else
      var n: int := ReadThousandths(s[1..]);
      -n
  }

  lemma Pad3Value(n: nat)
    requires n < 1000
    ensures Value(Pad3(n)) == n
  {
    var s := Pad3(n);
    assert s[..2] == [s[0], s[1]] && s[..2][..1] == [s[0]] && s[..1][..0] == "";
    assert Value([s[0]]) == n / 100 by { assert [s[0]][..0] == ""; }
    assert Value([s[0], s[1]]) == 10 * (n / 100) + n / 10 % 10 by { assert [s[0], s[1]][..1] == [s[0]]; }
    assert n == 100 * (n / 100) + 10 * (n / 10 % 10) + n % 10;
  }

  lemma ThousandthsReadBack(n: nat)
    ensures IsThousandths(PrintThousandths(n)) && ReadThousandths(PrintThousandths(n)) == n
  {
    var s, whole, frac := PrintThousandths(n), DigitsOf(n / 1000), Pad3(n % 1000);
    assert s[..|s| - 4] == whole && s[|s| - 3..] == frac;
    ValueOfDigits(n / 1000);
    Pad3Value(n % 1000);
  }

  lemma MinusIsNotThousandths(s: string)
    requires IsThousandths(s)
    ensures !IsThousandths("-" + s) && ("-" + s)[1..] == s
  {
    var t := "-" + s;
    assert t[..|t| - 4][0] == '-';
  }

  lemma FixedReadsBack(x: real)
    ensures var n: int := Nearest((if x < 0.0 then -x else x) * 1000.0);
      IsSeconds(FormatFixed3(x)) && ReadMs(FormatFixed3(x)) == if x < 0.0 then -n else n
  {
    hide Nearest, PrintThousandths, ReadThousandths, IsThousandths;
    var n := Nearest((if x < 0.0 then -x else x) * 1000.0);
    ThousandthsReadBack(n);
    MinusIsNotThousandths(PrintThousandths(n));
  }

  // ----- exactness

  lemma NearestIs(y: real, n: nat)
    requires y >= 0.0 && n as real - 0.5 < y < n as real + 0.5
    ensures Nearest(y) == n
  {
  }

  /** Any seconds value within half a millisecond prints the same digits, so the rounding
      of the float64 division, about a microsecond at most here, cannot show. */
  lemma RoundingDoesNotShow(ms: Int64, x: real)
    requires 0 <= ms <= LONGEST_MS && x >= 0.0
    requires -0.0005 < x - DurationSeconds(ms) < 0.0005
    ensures FormatFixed3(x) == FormatMs(ms) == PrintThousandths(ms)
  {
    ExactSeconds(ms);
    NearestIs(x * 1000.0, ms);
    NearestIs(DurationSeconds(ms) * 1000.0, ms);
  }

  lemma ExactSeconds(ms: Int64)
    requires 0 <= ms <= LONGEST_MS
    ensures DurationSeconds(ms) * 1000.0 == ms as real
  {
  }

  /** formatMs is an exact, invertible printer up to LONGEST_MS and, because the duration
      wraps, for no longer offset. */
  lemma ReadsBackIff(ms: Int64)
    requires ms >= 0
    ensures IsSeconds(FormatMs(ms))
    ensures ReadMs(FormatMs(ms)) == ms <==> ms <= LONGEST_MS
  {
    FixedReadsBack(DurationSeconds(ms));
    if ms <= LONGEST_MS {
      ExactSeconds(ms);
      NearestIs(DurationSeconds(ms) * 1000.0, ms);
    } else {
      WrappedIsElsewhere(ms);
    }
  }

  lemma WrappedIsElsewhere(ms: Int64)
    requires ms > LONGEST_MS
    ensures var x := DurationSeconds(ms); x < 0.0 || x * 1000.0 < ms as real - 0.5
  {
  }

  /** The first offset whose nanoseconds wrap prints as a negative number of seconds. */
  lemma LongerPrintsWrong()
    ensures IsSeconds(FormatMs(LONGEST_MS + 1))
    ensures ReadMs(FormatMs(LONGEST_MS + 1)) == -9223372036855
  {
    var x := DurationSeconds(LONGEST_MS + 1);
    assert x == -9223372036.854551616;
    FixedReadsBack(x);
    NearestIs(-x * 1000.0, 9223372036855);
  }

  /** The arguments of consecutive cuts tile the timeline: printed start plus printed length
      is the printed start of the next window. */
  lemma CutsTile(a: Int64, b: Int64)
    requires 0 <= a < b <= LONGEST_MS
    ensures IsSeconds(FormatMs(a)) && IsSeconds(FormatMs(b - a)) && IsSeconds(FormatMs(b))
    ensures ReadMs(FormatMs(a)) + ReadMs(FormatMs(b - a)) == ReadMs(FormatMs(b))
  {
    ReadsBackIff(a);
    ReadsBackIff(b - a);
    ReadsBackIff(b);
  }
}
