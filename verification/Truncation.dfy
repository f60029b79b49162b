/** What capping the silencedetect log does to the numbers found in it, to their sum and to
    the verdict. */
module Truncation {
  import opened Text
  import opened Wrappers
  import opened Decimal
  import opened Silence

  // ----- scanning a truncated log

  /** What a cut at n leaves of the match at the head of the log. */
  lemma TokenInPrefix(log: string, n: nat)
    requires n <= |log|
    ensures TokenAt(log[..n]) ==
      match TokenAt(log)
      case None => None
      case Some(g) => if n <= g.from then None else Some(Group(g.from, if n < g.to then n else g.to))
  {
    hide Label;
    LabelInPrefix(log, n);
    if Label() <= log && |Label()| <= n {
      TokenPastLabel(log, n);
    }
  }

  lemma TokenPastLabel(log: string, n: nat)
    requires |Label()| <= n <= |log| && Label() <= log && Label() <= log[..n]
    ensures TokenAt(log[..n]) ==
      match TokenAt(log)
      case None => None
      case Some(g) => if n <= g.from then None else Some(Group(g.from, if n < g.to then n else g.to))
  {
    hide Label, SpaceRun, NumberRun, IsNumberChar, IsRegexpSpace;
    var l := |Label()|;
    SpacesInPrefix(log, n, l);
    var from := l + SpaceRun(log[l..]);
    if from <= n {
      NumberInPrefix(log, n, from);
    }
  }

  lemma LabelInPrefix(log: string, n: nat)
    requires n <= |log|
    ensures Label() <= log[..n] <==> Label() <= log && |Label()| <= n
  {
    hide Label;
    if |Label()| <= n {
      assert log[..n][..|Label()|] == log[..|Label()|];
    }
  }

  lemma SpacesInPrefix(log: string, n: nat, i: nat)
    requires i <= n <= |log|
    ensures var sp := SpaceRun(log[i..]);
      SpaceRun(log[..n][i..]) == if i + sp < n then sp else n - i
  {
    assert log[..n][i..] == log[i..][..n - i];
    var sp := SpaceRun(log[i..]);
    SpaceRunIs(log[..n][i..], if i + sp < n then sp else n - i);
  }

  lemma NumberInPrefix(log: string, n: nat, i: nat)
    requires i <= n <= |log|
    ensures var num := NumberRun(log[i..]);
      NumberRun(log[..n][i..]) == if i + num < n then num else n - i
  {
    assert log[..n][i..] == log[i..][..n - i];
    var num := NumberRun(log[i..]);
    NumberRunIs(log[..n][i..], if i + num < n then num else n - i);
  }

  lemma {:induction false} NoLabelNoNumbers(s: string)
    requires 's' !in s
    ensures Numbers(s) == []
  {
    if s != "" {
      assert s[0] != Label()[0];
      NoLabelNoNumbers(s[1..]);
    }
  }

  /** A match cut before its number leaves nothing to find. */
  lemma CutBeforeNumber(log: string, n: nat)
    requires TokenAt(log).Some? && n <= TokenAt(log).value.from
    ensures Numbers(log[..n]) == []
  {
    TokenInPrefix(log, n);
    if n > 0 {
      hide Label;
      var tail := log[..n][1..];
      forall i | 0 <= i < |tail| ensures tail[i] != 's' {
        if i + 1 < |Label()| {
          assert tail[i] == log[i + 1] == Label()[i + 1] == Label()[1..][i];
        } else {
          assert tail[i] == log[|Label()|..][i + 1 - |Label()|];
        }
      }
      NoLabelNoNumbers(tail);
    }
  }

  /** a is b up to some point, its last number perhaps shortened. */
  ghost predicate Truncates(a: seq<string>, b: seq<string>) {
    && |a| <= |b|
    && (forall k :: 0 <= k < |a| - 1 ==> a[k] == b[k])
    && (|a| > 0 ==> a[|a| - 1] != "" && a[|a| - 1] <= b[|a| - 1])
  }

  lemma SlicesOfPrefix(log: string, n: nat, i: nat, j: nat)
    requires i <= j <= n <= |log|
    ensures log[..n][i..j] == log[i..j]
    ensures log[..n][j..] == log[j..][..n - j]
  {
  }

  /** A truncated log gives the same numbers, except that the last may be shortened. */
  lemma {:induction false} PrefixNumbers(log: string, n: nat)
    requires n <= |log|
    ensures Truncates(Numbers(log[..n]), Numbers(log))
  {
    hide TokenAt, Label;
    if n > 0 {
      TokenInPrefix(log, n);
      match TokenAt(log) {
        case None =>
          SlicesOfPrefix(log, n, 1, 1);
          PrefixNumbers(log[1..], n - 1);
        case Some(g) =>
          if n <= g.from {
            CutBeforeNumber(log, n);
          } else if n <= g.to {
            LoneToken(log[..n], g.from);
            assert log[..n][g.from..] == log[g.from..g.to][..n - g.from];
          } else {
            SlicesOfPrefix(log, n, g.from, g.to);
            PrefixNumbers(log[g.to..], n - g.to);
          }
      }
    }
  }

  /** Every way of shortening a number is reached by some cut. */
  lemma {:induction false} CutInside(log: string, k: nat, length: nat) returns (n: nat)
    requires k < |Numbers(log)| && 0 < length <= |Numbers(log)[k]|
    ensures n <= |log| && Numbers(log[..n]) == Numbers(log)[..k] + [Numbers(log)[k][..length]]
  {
    hide TokenAt, Label;
    match TokenAt(log) {
      case None =>
        n := CutInside(log[1..], k, length);
        n := n + 1;
        TokenInPrefix(log, n);
        SlicesOfPrefix(log, n, 1, 1);
      case Some(g) =>
        if k == 0 {
          n := g.from + length;
          TokenInPrefix(log, n);
          LoneToken(log[..n], g.from);
          assert log[..n][g.from..] == log[g.from..g.to][..length];
        } else {
          n := CutInside(log[g.to..], k - 1, length);
          n := g.to + n;
          TokenInPrefix(log, n);
          SlicesOfPrefix(log, n, g.from, g.to);
          assert Numbers(log)[..k] == [log[g.from..g.to]] + Numbers(log[g.to..])[..k - 1];
        }
    }
  }

  // ----- when truncation is safe

  /** A number that is counted, or that has no nonzero digit before its second dot. The
      others are rejected whole but counted when shortened: 1.2.3 cut to 1.2, or digits
      beyond the float64 range cut back into it. */
  predicate Harmless(token: string) {
    ParseFloat(token).Some? ||
    forall i :: 0 <= i < |token| && '1' <= token[i] <= '9' ==> Dots(token[..i]) > 1
  }

  lemma {:induction false} DotsGrow(token: string, i: nat)
    requires i <= |token|
    ensures Dots(token[..i]) <= Dots(token)
  {
    if i < |token| {
      assert token[..|token| - 1][..i] == token[..i];
      DotsGrow(token[..|token| - 1], i);
    } else {
      assert token[..i] == token;
    }
  }

  lemma {:induction false} ValGrows(token: string, i: nat)
    requires i <= |token|
    ensures Val(token[..i]) <= Val(token)
  {
    if i < |token| {
      assert token[..|token| - 1][..i] == token[..i];
      ValGrows(token[..|token| - 1], i);
    } else {
      assert token[..i] == token;
    }
  }

  lemma {:induction false} ZerosAreZero(token: string)
    requires forall i :: 0 <= i < |token| ==> !('1' <= token[i] <= '9')
    ensures Val(token) == 0.0
  {
    if token != "" {
      ZerosAreZero(token[..|token| - 1]);
    }
  }

  lemma HarmlessPrefix(token: string, i: nat)
    requires Harmless(token) && i <= |token|
    ensures Seconds(token[..i]) <= Seconds(token)
  {
    var p := token[..i];
    DotsGrow(token, i);
    ValGrows(token, i);
    if ParseFloat(token).None? && Dots(p) <= 1 {
      forall j | 0 <= j < |p| ensures !('1' <= p[j] <= '9') {
        assert p[..j] == token[..j];
        DotsGrow(p, j);
      }
      ZerosAreZero(p);
    }
  }

  /** A harmful number has a prefix that counts although the whole does not. */
  lemma HarmfulPrefix(token: string) returns (i: nat)
    requires !Harmless(token)
    ensures 0 < i <= |token| && Seconds(token[..i]) > Seconds(token)
  {
    hide FloatLimit;
    var j: nat :| j < |token| && '1' <= token[j] <= '9' && Dots(token[..j]) <= 1;
    j := FirstNonzero(token, j);
    i := j + 1;
    var p := token[..i];
    assert p[..j] == token[..j];
    ZerosAreZero(token[..j]);
    assert IsDigit(p[j]);
  }

  lemma {:induction false} FirstNonzero(token: string, j: nat) returns (k: nat)
    requires j < |token| && '1' <= token[j] <= '9' && Dots(token[..j]) <= 1
    ensures k < |token| && '1' <= token[k] <= '9' && Dots(token[..k]) <= 1
    ensures forall i :: 0 <= i < k ==> !('1' <= token[i] <= '9')
    decreases j
  {
    k := j;
    if i: nat :| i < j && '1' <= token[i] <= '9' {
      assert token[..j][..i] == token[..i];
      DotsGrow(token[..j], i);
      k := FirstNonzero(token, i);
    }
  }

  // ----- the sum over a truncated log

  lemma {:induction false} TotalAppend(a: seq<string>, b: seq<string>)
    ensures Total(a + b) == Total(a) + Total(b)
  {
    if |b| == 0 {
      assert a + b == a;
    } else {
      assert (a + b)[..|a + b| - 1] == a + b[..|b| - 1];
      TotalAppend(a, b[..|b| - 1]);
    }
  }

  lemma TotalSplit(b: seq<string>, k: nat, token: string)
    requires k < |b|
    ensures Total(b) == Total(b[..k]) + Total(b[k..])
    ensures Total(b[..k] + [token]) == Total(b[..k]) + Seconds(token)
  {
    hide Total, Seconds;
    assert b == b[..k] + b[k..];
    TotalAppend(b[..k], b[k..]);
    TotalAppend(b[..k], [token]);
    TotalOne(token);
  }

  /** token, the k-th of the numbers b or a beginning of it, counts for no more than what a
      cut after it loses: the whole of that number and all the later ones. */
  ghost predicate Covered(b: seq<string>, k: nat, token: string)
    requires k < |b|
  {
    Seconds(token) <= Total(b[k..])
  }

  /** A cut raises the sum exactly if its last number is not covered. */
  lemma CutIsSafeIff(log: string, n: nat)
    requires n <= |log|
    ensures var a, b := Numbers(log[..n]), Numbers(log);
      && |a| <= |b|
      && (Total(a) <= Total(b) <==> |a| == 0 || Covered(b, |a| - 1, a[|a| - 1]))
  {
    PrefixNumbers(log, n);
    hide Numbers;
    var a, b := Numbers(log[..n]), Numbers(log);
    if |a| > 0 {
      var k := |a| - 1;
      assert a == b[..k] + [a[k]];
      TotalSplit(b, k, a[k]);
      hide Seconds;
    }
  }

  /** No cut of the log raises the sum. */
  ghost predicate TruncationSafe(log: string) {
    forall n: nat :: n <= |log| ==> Total(Numbers(log[..n])) <= Total(Numbers(log))
  }

  /** However a number is shortened, what is left of it is covered. */
  ghost predicate AllCovered(b: seq<string>) {
    forall k: nat, i: nat :: k < |b| && 0 < i <= |b[k]| ==> Covered(b, k, b[k][..i])
  }

  /** Truncation is safe exactly for the logs in which no number, shortened, counts for more
      than it and all later numbers together. */
  lemma SafeIffCovered(log: string)
    ensures TruncationSafe(log) <==> AllCovered(Numbers(log))
  {
    hide Numbers, Covered, Total;
    var b := Numbers(log);
    forall n: nat | n <= |log| && AllCovered(b)
      ensures Total(Numbers(log[..n])) <= Total(b)
    {
      PrefixNumbers(log, n);
      CutIsSafeIff(log, n);
      var a := Numbers(log[..n]);
      if |a| > 0 {
        assert a[|a| - 1] == b[|a| - 1][..|a[|a| - 1]|];
      }
    }
    forall k: nat, i: nat | TruncationSafe(log) && k < |b| && 0 < i <= |b[k]|
      ensures Covered(b, k, b[k][..i])
    {
      var n := CutInside(log, k, i);
      CutIsSafeIff(log, n);
    }
  }

  /** At one duration: a cut can turn the verdict silent exactly if the whole log is not
      silent, and some number, shortened and added to the earlier ones, is enough. */
  lemma VerdictCanChangeIff(log: string, durationMs: int)
    ensures (exists n: nat :: n <= |log| && SilentThroughout(log[..n], durationMs) && !SilentThroughout(log, durationMs))
      <==> !SilentThroughout(log, durationMs) && ReachedShort(Numbers(log), durationMs)
  {
    hide Numbers, Total, Seconds;
    var b := Numbers(log);
    if n: nat :| n <= |log| && SilentThroughout(log[..n], durationMs) && !SilentThroughout(log, durationMs) {
      PrefixNumbers(log, n);
      var a := Numbers(log[..n]);
      NoNumbersNoSum();
      assert |a| > 0;
      var k := |a| - 1;
      TotalSplit(b, k, a[k]);
      assert a == b[..k] + [a[k]];
      assert a[k] == b[k][..|a[k]|];
      assert Reaches(b, k, |a[k]|, durationMs);
    }
    if ReachedShort(b, durationMs) && !SilentThroughout(log, durationMs) {
      var k: nat, i: nat :| k < |b| && 0 < i <= |b[k]| && Reaches(b, k, i, durationMs);
      var n := CutInside(log, k, i);
      TotalSplit(b, k, b[k][..i]);
      assert SilentThroughout(log[..n], durationMs);
    }
  }

  lemma NoNumbersNoSum()
    ensures Total([]) == 0.0
  {
  }

  ghost predicate Reaches(b: seq<string>, k: nat, i: nat, durationMs: int)
    requires k < |b| && i <= |b[k]|
  {
    (Total(b[..k]) + Seconds(b[k][..i])) * 1000.0 >= 0.99 * durationMs as real
  }

  ghost predicate ReachedShort(b: seq<string>, durationMs: int) {
    exists k: nat, i: nat :: k < |b| && 0 < i <= |b[k]| && Reaches(b, k, i, durationMs)
  }

  // ----- logs that are safe number by number

  predicate AllHarmless(log: string) {
    forall k :: 0 <= k < |Numbers(log)| ==> Harmless(Numbers(log)[k])
  }

  lemma SecondsInTotal(b: seq<string>, k: nat)
    requires k < |b|
    ensures Seconds(b[k]) <= Total(b[k..])
  {
    hide Total, Seconds;
    assert b[k..] == [b[k]] + b[k + 1..];
    TotalAppend([b[k]], b[k + 1..]);
    TotalOne(b[k]);
  }

  /** Numbers that are all harmless are all covered, each by itself. */
  lemma HarmlessIsCovered(log: string)
    requires AllHarmless(log)
    ensures AllCovered(Numbers(log))
  {
    hide Numbers, Harmless, Seconds, Total;
    var b := Numbers(log);
    forall k: nat, i: nat | k < |b| && 0 < i <= |b[k]| ensures Covered(b, k, b[k][..i]) {
      HarmlessPrefix(b[k], i);
      SecondsInTotal(b, k);
    }
  }

  /** A number that nothing later makes up for is covered exactly if it is harmless. */
  lemma LastIsCoveredIff(b: seq<string>)
    requires |b| > 0
    ensures var k := |b| - 1;
      (forall i: nat :: 0 < i <= |b[k]| ==> Covered(b, k, b[k][..i])) <==> Harmless(b[k])
  {
    hide Harmless, Seconds, Total;
    var k := |b| - 1;
    assert b[k..] == [b[k]];
    TotalOne(b[k]);
    if Harmless(b[k]) {
      forall i: nat | 0 < i <= |b[k]| ensures Covered(b, k, b[k][..i]) { HarmlessPrefix(b[k], i); }
    } else {
      var i := HarmfulPrefix(b[k]);
      assert !Covered(b, k, b[k][..i]);
    }
  }

  /** For such logs a silent verdict on what the capped buffer kept is a silent verdict on
      the whole log, at every cap. */
  lemma SilentWhenCappedIsSilent(log: string, n: nat, durationMs: int)
    requires n <= |log| && AllCovered(Numbers(log))
    requires SilentThroughout(log[..n], durationMs)
    ensures SilentThroughout(log, durationMs)
  {
    SafeIffCovered(log);
    hide Numbers, AllCovered;
    assert Total(Numbers(log[..n])) <= Total(Numbers(log));
  }

  // ----- the same, however the sum is rounded

  // A rounding of nonnegative reals such as float64's: monotone, and exact on its results.
  // Infinity may be thought of as a number above all thresholds that sums stick to.
  ghost predicate IsRounding(round: real -> real) {
    && round(0.0) == 0.0
    && (forall x, y :: 0.0 <= x <= y ==> round(x) <= round(y))
    && (forall x :: 0.0 <= x ==> round(round(x)) == round(x))
  }

  /** One turn of the loop with every operation rounded: the parsed number, its
      milliseconds and the addition. */
  ghost function RoundedAdd(round: real -> real, sum: real, seconds: real): (r: real)
    requires IsRounding(round) && sum >= 0.0 && seconds >= 0.0
    ensures r >= 0.0
  {
    round(sum + round(round(seconds) * 1000.0))
  }

  ghost function RoundedTotal(round: real -> real, tokens: seq<string>): (r: real)
    requires IsRounding(round)
    ensures r >= 0.0 && round(r) == r
  {
    if |tokens| == 0 then 0.0
    else RoundedAdd(round, RoundedTotal(round, tokens[..|tokens| - 1]), Seconds(tokens[|tokens| - 1]))
  }

  ghost predicate CountsNoMore(a: seq<string>, b: seq<string>) {
    |a| <= |b| && forall k :: 0 <= k < |a| ==> Seconds(a[k]) <= Seconds(b[k])
  }

  lemma {:induction false} RoundedTotalNoMore(round: real -> real, a: seq<string>, b: seq<string>)
    requires IsRounding(round) && CountsNoMore(a, b)
    ensures RoundedTotal(round, a) <= RoundedTotal(round, b)
  {
    hide Seconds, RoundedAdd, IsRounding;
    if |b| > 0 {
      var init := b[..|b| - 1];
      if |a| == |b| {
        var m := |a| - 1;
        RoundedTotalNoMore(round, a[..m], init);
        RoundedAddNoMore(round, RoundedTotal(round, a[..m]), RoundedTotal(round, init), Seconds(a[m]), Seconds(b[m]));
      } else {
        RoundedTotalNoMore(round, a, init);
        RoundedAddGrows(round, RoundedTotal(round, init), Seconds(b[|b| - 1]));
      }
    }
  }

  lemma RoundedAddNoMore(round: real -> real, s: real, t: real, x: real, y: real)
    requires IsRounding(round) && 0.0 <= x <= y && 0.0 <= s <= t
    ensures RoundedAdd(round, s, x) <= RoundedAdd(round, t, y)
  {
    assert 0.0 <= round(x) <= round(y);
  }

  lemma RoundedAddGrows(round: real -> real, t: real, y: real)
    requires IsRounding(round) && 0.0 <= y && 0.0 <= t && round(t) == t
    ensures t <= RoundedAdd(round, t, y)
  {
  }

  lemma TruncationCountsNoMore(a: seq<string>, b: seq<string>)
    requires Truncates(a, b) && forall k :: 0 <= k < |b| ==> Harmless(b[k])
    ensures CountsNoMore(a, b)
  {
    hide Harmless, Seconds;
    if |a| > 0 {
      var last := |a| - 1;
      assert a[last] == b[last][..|a[last]|];
      HarmlessPrefix(b[last], |a[last]|);
    }
  }

  /** If all numbers are harmless, truncation is safe whatever the rounding. */
  lemma HarmlessHoweverRounded(round: real -> real, log: string, n: nat)
    requires IsRounding(round) && n <= |log| && AllHarmless(log)
    ensures RoundedTotal(round, Numbers(log[..n])) <= RoundedTotal(round, Numbers(log))
  {
    PrefixNumbers(log, n);
    hide Numbers, Harmless, RoundedTotal, IsRounding, CountsNoMore, Truncates;
    TruncationCountsNoMore(Numbers(log[..n]), Numbers(log));
    RoundedTotalNoMore(round, Numbers(log[..n]), Numbers(log));
  }

  // ----- a log whose verdict changes

  function Spaces(n: nat): (s: string)
    ensures |s| == n
  {
    seq(n, i => ' ')
  }

  lemma {:induction false} SpacesAreSkipped(n: nat, s: string)
    ensures Numbers(Spaces(n) + s) == Numbers(s)
  {
    if n == 0 {
      assert Spaces(n) + s == s;
    } else {
      var t := Spaces(n) + s;
      assert t[0] != Label()[0];
      assert t[1..] == Spaces(n - 1) + s;
      SpacesAreSkipped(n - 1, s);
    }
  }

  /** 1.. is a second when cut after its digit, and nothing whole; so the condition is
      needed, at every cap that leaves room for the label. */
  lemma CappedVerdictCanBeWrong(cap: nat) returns (log: string)
    requires cap > |Label()|
    ensures cap < |log|
    ensures SilentThroughout(log[..cap], 1000) && !SilentThroughout(log, 1000)
  {
    hide Label, Numbers, Seconds, Total;
    var pad := Spaces(cap - |Label()| - 1);
    log := pad + (Label() + "1..");
    Shorter(pad, Label(), "1", "..");
    assert "1" + ".." == "1..";
    assert log[..cap] == pad + (Label() + "1");
    SpacesAreSkipped(|pad|, Label() + "1");
    SpacesAreSkipped(|pad|, Label() + "1..");
    OneNumber("1");
    OneNumber("1..");
    OneSecond();
    TwoDots();
  }

  lemma Shorter(a: string, b: string, c: string, d: string)
    ensures (a + (b + (c + d)))[..|a| + |b| + |c|] == a + (b + c)
  {
  }

  lemma OneSecond()
    ensures Seconds("1") == 1.0
  {
  }

  lemma TwoDots()
    ensures Seconds("1..") == 0.0
  {
  }
}
