/** The silencedetect log: the scanner for silence_duration:\s*([0-9.]+), and the sum of the
    numbers it finds, in exact decimals. */
module Silence {
  import opened Text
  import opened Wrappers
  import opened Decimal

  // ----- the pattern

  function Label(): (l: string)
    ensures |l| == 17 && l[0] == 's' && 's' !in l[1..]
  {
    "silence_duration:"
  }

  predicate IsNumberChar(c: char) {
    IsDigit(c) || c == '.'
  }

  function SpaceRun(s: string): (n: nat)
    ensures n <= |s|
    ensures forall i :: 0 <= i < n ==> IsRegexpSpace(s[i])
    ensures n < |s| ==> !IsRegexpSpace(s[n])
  {
    if |s| > 0 && IsRegexpSpace(s[0]) then 1 + SpaceRun(s[1..]) else 0
  }

  function NumberRun(s: string): (n: nat)
    ensures n <= |s|
    ensures forall i :: 0 <= i < n ==> IsNumberChar(s[i])
    ensures n < |s| ==> !IsNumberChar(s[n])
  {
    if |s| > 0 && IsNumberChar(s[0]) then 1 + NumberRun(s[1..]) else 0
  }

  // The captured group: log[from..to].
  datatype Group = Group(from: nat, to: nat)

  /** The match at the very start of the log, if there is one. */
  function TokenAt(log: string): (g: Option<Group>)
    ensures g.Some? ==> |Label()| <= g.value.from < g.value.to <= |log|
  {
    if Label() <= log then
      var from := |Label()| + SpaceRun(log[|Label()|..]);
      var to := from + NumberRun(log[from..]);
      if from < to then Some(Group(from, to)) else None
    else None
  }

  /** log[..to] is in the language of the pattern, its captured group at from. */
  predicate InLanguage(log: string, from: nat, to: nat) {
    && Label() <= log && |Label()| <= from < to <= |log|
    && (forall i :: |Label()| <= i < from ==> IsRegexpSpace(log[i]))
    && (forall i :: from <= i < to ==> IsNumberChar(log[i]))
  }

  /** The scanner matches exactly when the pattern does, and captures the longest number. */
  lemma ScannerIsPattern(log: string)
    ensures TokenAt(log).Some? <==> exists from: nat, to: nat :: InLanguage(log, from, to)
    ensures TokenAt(log).Some? ==>
      forall from: nat, to: nat :: InLanguage(log, from, to) ==>
        from == TokenAt(log).value.from && to <= TokenAt(log).value.to
  {
    hide Label;
    if TokenAt(log).Some? {
      Scanned(log);
    }
    forall from: nat, to: nat | InLanguage(log, from, to)
      ensures TokenAt(log).Some? && from == TokenAt(log).value.from && to <= TokenAt(log).value.to
    {
      LanguageIsScanned(log, from, to);
    }
  }

  lemma Scanned(log: string)
    requires TokenAt(log).Some?
    ensures InLanguage(log, TokenAt(log).value.from, TokenAt(log).value.to)
  {
    hide Label;
    var g, l := TokenAt(log).value, |Label()|;
    forall i | l <= i < g.from ensures IsRegexpSpace(log[i]) { assert log[i] == log[l..][i - l]; }
    forall i | g.from <= i < g.to ensures IsNumberChar(log[i]) { assert log[i] == log[g.from..][i - g.from]; }
  }

  lemma LanguageIsScanned(log: string, from: nat, to: nat)
    requires InLanguage(log, from, to)
    ensures TokenAt(log).Some? && from == TokenAt(log).value.from && to <= TokenAt(log).value.to
  {
    hide Label;
    var l := |Label()|;
    assert log[l..][from - l] == log[from];
    SpaceRunIs(log[l..], from - l);
    var n := NumberRun(log[from..]);
    assert forall i :: 0 <= i < to - from ==> IsNumberChar(log[from..][i]);
  }

  /** FindAllStringSubmatch: the captured groups of all leftmost matches. */
  function Numbers(log: string): seq<string> {
    if log == "" then []
    else match TokenAt(log)
      case Some(g) => [log[g.from..g.to]] + Numbers(log[g.to..])
      case None => Numbers(log[1..])
  }

  lemma SpaceRunIs(s: string, n: nat)
    requires n <= |s| && (forall i :: 0 <= i < n ==> IsRegexpSpace(s[i]))
    requires n < |s| ==> !IsRegexpSpace(s[n])
    ensures SpaceRun(s) == n
  {
  }

  lemma NumberRunIs(s: string, n: nat)
    requires n <= |s| && (forall i :: 0 <= i < n ==> IsNumberChar(s[i]))
    requires n < |s| ==> !IsNumberChar(s[n])
    ensures NumberRun(s) == n
  {
  }

  // One match of the pattern in the log: log[at..to], its captured group log[from..to].
  datatype Match = Match(at: nat, from: nat, to: nat)

  ghost predicate IsMatch(log: string, m: Match) {
    && m.at <= m.from <= m.to <= |log|
    && InLanguage(log[m.at..], m.from - m.at, m.to - m.at)
    && (m.to < |log| ==> !IsNumberChar(log[m.to]))
  }

  ghost predicate MatchesAt(log: string, p: nat) {
    p <= |log| && exists from: nat, to: nat :: InLanguage(log[p..], from, to)
  }

  ghost predicate Inside(ms: seq<Match>, p: nat) {
    exists k :: 0 <= k < |ms| && ms[k].at <= p < ms[k].to
  }

  /** From position p on: longest matches, in order and without overlap, and no match begins
      outside them. */
  ghost predicate AllMatches(log: string, p: nat, ms: seq<Match>) {
    && (forall k :: 0 <= k < |ms| ==> IsMatch(log, ms[k]))
    && (|ms| > 0 ==> p <= ms[0].at)
    && (forall k :: 0 < k < |ms| ==> ms[k - 1].to <= ms[k].at)
    && (forall q :: p <= q && MatchesAt(log, q) ==> Inside(ms, q))
  }

  ghost predicate Captures(log: string, ms: seq<Match>, tokens: seq<string>) {
    && |ms| == |tokens|
    && forall k :: 0 <= k < |ms| ==> ms[k].from <= ms[k].to <= |log| && tokens[k] == log[ms[k].from..ms[k].to]
  }

  lemma FirstMatch(log: string, p: nat) returns (m: Match)
    requires p < |log| && TokenAt(log[p..]).Some?
    ensures var g := TokenAt(log[p..]).value; m == Match(p, p + g.from, p + g.to)
    ensures IsMatch(log, m) && m.to > p
    ensures log[m.from..m.to] == log[p..][m.from - p..m.to - p]
  {
    var s := log[p..];
    Scanned(s);
    NumberEnds(s);
    hide TokenAt, InLanguage;
    var g := TokenAt(s).value;
    m := Match(p, p + g.from, p + g.to);
    SliceOfSlice(log, p, g.from, g.to);
  }

  lemma NumberEnds(s: string)
    requires TokenAt(s).Some?
    ensures var to := TokenAt(s).value.to; to < |s| ==> !IsNumberChar(s[to])
  {
    hide Label;
    var g := TokenAt(s).value;
    var num := s[g.from..];
    assert g.to < |s| ==> s[g.to] == num[g.to - g.from];
  }

  lemma SliceOfSlice(log: string, p: nat, i: nat, j: nat)
    requires p <= |log| && i <= j <= |log| - p
    ensures log[p..][i..j] == log[p + i..p + j]
    ensures p + j < |log| ==> log[p + j] == log[p..][j]
  {
  }

  lemma {:induction false} MatchesFrom(log: string, p: nat) returns (ms: seq<Match>)
    requires p <= |log|
    ensures AllMatches(log, p, ms) && Captures(log, ms, Numbers(log[p..]))
    decreases |log| - p
  {
    hide TokenAt, InLanguage, Label;
    ms := [];
    var s := log[p..];
    if p == |log| {
      NoMatchAtEnd(log);
    } else {
      ScannerIsPattern(s);
      match TokenAt(s) {
        case None =>
          ms := MatchesFrom(log, p + 1);
          assert s[1..] == log[p + 1..];
          LaterMatches(log, p, p + 1, ms);
        case Some(g) =>
          var m := FirstMatch(log, p);
          var rest := MatchesFrom(log, m.to);
          assert s[g.to..] == log[m.to..];
          ms := [m] + rest;
          MoreMatches(log, m, rest);
      }
    }
  }

  lemma LaterMatches(log: string, p: nat, q: nat, ms: seq<Match>)
    requires q == p + 1 && AllMatches(log, q, ms) && !MatchesAt(log, p)
    ensures AllMatches(log, p, ms)
  {
  }

  lemma MoreMatches(log: string, m: Match, rest: seq<Match>)
    requires IsMatch(log, m) && m.at < m.to && AllMatches(log, m.to, rest)
    ensures AllMatches(log, m.at, [m] + rest)
  {
    hide InLanguage, IsMatch;
    var ms := [m] + rest;
    forall q | m.at <= q && MatchesAt(log, q) ensures Inside(ms, q) {
      if q < m.to {
        assert ms[0].at <= q < ms[0].to;
      } else {
        var k :| 0 <= k < |rest| && rest[k].at <= q < rest[k].to;
        assert ms[k + 1] == rest[k];
      }
    }
  }

  lemma NoMatchAtEnd(log: string)
    ensures !MatchesAt(log, |log|)
  {
  }

  /** The numbers are the groups of all matches of the log: the longest, from the left,
      without overlap, and leaving out none. */
  lemma NumbersAreAllMatches(log: string) returns (ms: seq<Match>)
    ensures AllMatches(log, 0, ms) && Captures(log, ms, Numbers(log))
  {
    ms := MatchesFrom(log, 0);
    assert log[0..] == log;
  }

  // ----- the numbers

  function Dots(token: string): nat {
    if token == "" then 0
    else Dots(token[..|token| - 1]) + if token[|token| - 1] == '.' then 1 else 0
  }

  predicate HasDigit(token: string) {
    exists i :: 0 <= i < |token| && IsDigit(token[i])
  }

  function Digit(c: char): (d: real)
    ensures 0.0 <= d <= 9.0
    ensures d > 0.0 <==> '1' <= c <= '9'
  {
    if IsDigit(c) then (c as int - '0' as int) as real else 0.0
  }

  /** The weight of the next digit after the dot. */
  function Place(token: string): (p: real)
    ensures 0.0 < p <= 0.1
  {
    if token == "" || token[|token| - 1] == '.' then 0.1 else Place(token[..|token| - 1]) / 10.0
  }

  function Val(token: string): (v: real)
    ensures v >= 0.0
  {
    if token == "" then 0.0
    else
      var init, d := token[..|token| - 1], Digit(token[|token| - 1]);
      if token[|token| - 1] == '.' then Val(init)
      else if Dots(init) == 0 then 10.0 * Val(init) + d
      else Val(init) + Scaled(d, Place(init))
  }

  function Scaled(d: real, p: real): (r: real)
    requires d >= 0.0 && p > 0.0
    ensures 0.0 <= r
    ensures p <= 0.1 ==> r <= d
    ensures d > 0.0 ==> r > 0.0
  {
    d * p
  }

  function Pow(base: real, n: nat): (r: real)
    requires base >= 1.0
    ensures r >= 1.0
  {
    if n == 0 then 1.0 else Times(base, Pow(base, n - 1))
  }

  function Times(x: real, y: real): (r: real)
    requires x >= 1.0 && y >= 1.0
    ensures r >= x && r >= y
  {
    x * y
  }

  // The least value that does not round to a finite float64: 2^1024 - 2^970.
  function FloatLimit(): (r: real)
    ensures r >= 10.0
  {
    179769313486231580793728971405303415079934132710037826936173778980444968292764750946649017977587207096330286416692887910946555547851940402630657488671505820681908902000708383676273854845817711531764475730270069855571366959622842914819860834936475292719074168444365510704342711559699508093042880177904174497792.0
  }

  /** strconv.ParseFloat on a run of digits and dots, without rounding. */
  function ParseFloat(token: string): Option<real> {
    if Dots(token) > 1 || !HasDigit(token) || Val(token) >= FloatLimit() then None else Some(Val(token))
  }

  /** What one captured number adds to the sum: unparsable ones add nothing. */
  function Seconds(token: string): (r: real)
    ensures r >= 0.0
  {
    match ParseFloat(token)
    case Some(f) => f
    case None => 0.0
  }

  function Total(tokens: seq<string>): (r: real)
    ensures r >= 0.0
  {
    if |tokens| == 0 then 0.0 else Total(tokens[..|tokens| - 1]) + Seconds(tokens[|tokens| - 1])
  }

  /** The silent-throughout verdict on a log. */
  predicate SilentThroughout(log: string, durationMs: int) {
    Total(Numbers(log)) * 1000.0 >= 0.99 * durationMs as real
  }

  method Judge(log: string, durationMs: int) returns (silent: bool)
    ensures silent <==> SilentThroughout(log, durationMs)
  {
    var silentMs := 0.0;
    var tokens := Numbers(log);
    for i := 0 to |tokens|
      invariant silentMs == Total(tokens[..i]) * 1000.0
    {
      match ParseFloat(tokens[i]) {
        case Some(f) => if f > 0.0 { silentMs := silentMs + f * 1000.0; }
        case None =>
      }
      assert tokens[..i + 1][..i] == tokens[..i];
    }
    assert tokens[..|tokens|] == tokens;
    silent := silentMs >= 0.99 * durationMs as real;
  }

  // ----- what the numbers denote

  lemma {:induction false} WholeValue(w: string)
    requires AllDigits(w)
    ensures Val(w) == Value(w) as real && Dots(w) == 0
  {
    if w != "" {
      WholeValue(w[..|w| - 1]);
    }
  }

  lemma DigitAfterDot(init: string, c: char)
    requires Dots(init) == 1 && IsDigit(c)
    ensures var t := init + [c];
      && Val(t) == Val(init) + Scaled(Digit(c), Place(init))
      && Dots(t) == 1 && Place(t) == Place(init) / 10.0
  {
    assert (init + [c])[..|init|] == init;
  }

  lemma JustTheDot(w: string)
    requires Dots(w) == 0
    ensures Val(w + ".") == Val(w) && Dots(w + ".") == 1 && Place(w + ".") == 0.1
  {
    assert (w + ".")[..|w|] == w;
  }

  /** v is the number n with that many of its digits behind the dot. */
  predicate Denotes(v: real, n: nat, places: nat) {
    v * Pow(10.0, places) == n as real
  }

  predicate WeighsNext(place: real, places: nat) {
    place * Pow(10.0, places) == 0.1
  }

  /** The digits after the dot weigh a tenth, a hundredth, and so on. */
  lemma {:induction false} DecimalValue(w: string, f: string)
    requires AllDigits(w) && AllDigits(f)
    ensures var t := w + "." + f;
      Denotes(Val(t), Value(w + f), |f|) && Dots(t) == 1 && WeighsNext(Place(t), |f|)
  {
    hide Val, Place, Scaled, Dots, Pow, Denotes, WeighsNext;
    if f == "" {
      assert w + "." + f == w + "." && w + f == w;
      WholeValue(w);
      JustTheDot(w);
      NoPlaces(Value(w));
    } else {
      var g := f[..|f| - 1];
      var init := w + "." + g;
      assert w + "." + f == init + [f[|g|]];
      assert (w + f)[..|w + f| - 1] == w + g;
      DecimalValue(w, g);
      DigitAfterDot(init, f[|g|]);
      NextPlace(Val(init), Place(init), |g|, f[|g|], Value(w + g));
    }
  }

  lemma NoPlaces(n: nat)
    ensures Denotes(n as real, n, 0) && WeighsNext(0.1, 0)
  {
  }

  lemma NextPlace(v: real, place: real, places: nat, c: char, n: nat)
    requires IsDigit(c) && place > 0.0 && Denotes(v, n, places) && WeighsNext(place, places)
    ensures Denotes(v + Scaled(Digit(c), place), 10 * n + (c as int - '0' as int), places + 1)
    ensures WeighsNext(place / 10.0, places + 1)
  {
    var d, p := Digit(c), Pow(10.0, places);
    assert Pow(10.0, places + 1) == 10.0 * p;
    assert d * place * (10.0 * p) == d * (place * p) * 10.0;
    assert v * (10.0 * p) == v * p * 10.0;
  }

  lemma HasADigit(token: string, i: nat)
    requires i < |token| && IsDigit(token[i])
    ensures HasDigit(token)
  {
  }

  /** A run of digits counts for the number it denotes, unless that is out of range. */
  lemma SecondsOfWhole(w: string)
    requires w != "" && AllDigits(w)
    ensures Seconds(w) == if Value(w) as real < FloatLimit() then Value(w) as real else 0.0
  {
    hide FloatLimit;
    WholeValue(w);
    HasADigit(w, 0);
  }

  /** Digits around a dot count for the number they denote, unless that is out of range. */
  lemma SecondsOfDecimal(w: string, f: string)
    requires w + f != "" && AllDigits(w) && AllDigits(f)
    ensures var t := w + "." + f;
      if Value(w + f) as real < Times(FloatLimit(), Pow(10.0, |f|)) then Denotes(Seconds(t), Value(w + f), |f|)
      else Seconds(t) == 0.0
  {
    hide FloatLimit, Val, Dots, HasDigit, Pow, Seconds, Times, Denotes, Value, Place;
    var t := w + "." + f;
    DecimalValue(w, f);
    HasADigit(t, if w != "" then 0 else 1);
    InRange(t);
    Scales(Val(t), FloatLimit(), Value(w + f), |f|);
  }

  lemma Scales(v: real, limit: real, n: nat, places: nat)
    requires Denotes(v, n, places) && limit >= 1.0
    ensures v < limit <==> n as real < Times(limit, Pow(10.0, places))
  {
    hide Pow;
    var p := Pow(10.0, places);
    Orders(v, limit, p);
    assert Times(limit, p) == limit * p;
  }

  lemma Orders(x: real, y: real, p: real)
    requires p >= 1.0
    ensures x < y <==> x * p < y * p
  {
    assert (y - x) * p == y * p - x * p;
  }

  lemma InRange(token: string)
    requires Dots(token) <= 1 && HasDigit(token)
    ensures Seconds(token) == if Val(token) < FloatLimit() then Val(token) else 0.0
  {
    hide FloatLimit, Val, Dots, HasDigit;
  }

  /** Every captured number without a second dot has one of these two forms. */
  lemma {:induction false} FormOf(token: string) returns (w: string, f: string)
    requires (forall i :: 0 <= i < |token| ==> IsNumberChar(token[i])) && Dots(token) <= 1
    ensures AllDigits(w) && AllDigits(f)
    ensures if Dots(token) == 0 then token == w && f == "" else token == w + "." + f
  {
    w, f := "", "";
    if token != "" {
      var c, init := token[|token| - 1], token[..|token| - 1];
      w, f := FormOf(init);
      if Dots(init) == 1 {
        f := f + [c];
      } else if c != '.' {
        w := w + [c];
      }
    }
  }

  /** A number with two dots, or with none but a dot, counts for nothing. */
  lemma NoSeconds(token: string)
    requires Dots(token) > 1 || token == "."
    ensures Seconds(token) == 0.0
  {
  }

  // ----- a log of one interval

  /** The verdict in whole numbers: a log that reports one interval of n / 10^places seconds
      is silent exactly if that is at least 99 hundredths of the duration. */
  lemma OneInterval(w: string, f: string, durationMs: int)
    requires w + f != "" && AllDigits(w) && AllDigits(f)
    requires Value(w + f) as real < Times(FloatLimit(), Pow(10.0, |f|))
    ensures SilentThroughout(Label() + (w + "." + f), durationMs) <==>
      100_000.0 * Value(w + f) as real >= 99.0 * durationMs as real * Pow(10.0, |f|)
  {
    hide Label, FloatLimit, Pow, Seconds, Times, Denotes, Value, Numbers, Total;
    var t := w + "." + f;
    SecondsOfDecimal(w, f);
    OneNumber(t);
    Threshold(Seconds(t), Value(w + f), |f|, durationMs);
  }

  lemma Threshold(v: real, n: nat, places: nat, durationMs: int)
    requires Denotes(v, n, places)
    ensures v * 1000.0 >= 0.99 * durationMs as real <==>
      100_000.0 * n as real >= 99.0 * durationMs as real * Pow(10.0, places)
  {
    hide Pow;
    var p, d := Pow(10.0, places), durationMs as real;
    Orders(100_000.0 * v, 99.0 * d, p);
    assert 100_000.0 * v * p == 100_000.0 * (v * p);
  }

  lemma OneNumber(token: string)
    requires token != "" && forall i :: 0 <= i < |token| ==> IsNumberChar(token[i])
    ensures Numbers(Label() + token) == [token]
    ensures Total([token]) == Seconds(token)
  {
    hide Label, TokenAt, Seconds;
    TotalOne(token);
    OneToken(token);
    LoneToken(Label() + token, |Label()|);
    assert (Label() + token)[|Label()|..] == token;
  }

  lemma LoneToken(log: string, from: nat)
    requires TokenAt(log) == Some(Group(from, |log|))
    ensures Numbers(log) == [log[from..]]
  {
    hide Label, TokenAt;
    assert log[|log|..] == "";
    assert log[from..|log|] == log[from..];
  }

  lemma OneToken(token: string)
    requires token != "" && forall i :: 0 <= i < |token| ==> IsNumberChar(token[i])
    ensures TokenAt(Label() + token) == Some(Group(|Label()|, |Label() + token|))
  {
  }

  lemma TotalOne(token: string)
    ensures Total([token]) == Seconds(token)
  {
    assert [token][..0] == [];
  }
}
