/** redactURLCredentials: the scanner for (https?://[^\s?]+)\?\S+ and its replacement. */
module Redact {
  import opened Text
  import opened Wrappers

  function Mark(): (m: string)
    ensures |m| == 10 && m[0] == '<' && 'h' !in m
    ensures forall i :: 0 <= i < |m| ==> !IsRegexpSpace(m[i])
  {
    "<redacted>"
  }

  // ----- the pattern

  predicate IsHostChar(c: char) {
    !IsRegexpSpace(c) && c != '?'
  }

  /** The length of the maximal run of [^\s?] at the start of s. */
  function HostRun(s: string): (n: nat)
    ensures n <= |s|
    ensures forall i :: 0 <= i < n ==> IsHostChar(s[i])
    ensures n < |s| ==> !IsHostChar(s[n])
  {
    if |s| > 0 && IsHostChar(s[0]) then 1 + HostRun(s[1..]) else 0
  }

  /** The length of the maximal run of \S at the start of s. */
  function QueryRun(s: string): (n: nat)
    ensures n <= |s|
    ensures forall i :: 0 <= i < n ==> !IsRegexpSpace(s[i])
    ensures n < |s| ==> IsRegexpSpace(s[n])
  {
    if |s| > 0 && !IsRegexpSpace(s[0]) then 1 + QueryRun(s[1..]) else 0
  }

  function Scheme(s: string): (n: nat)
    ensures n <= |s|
  {
    if "http://" <= s then 7 else if "https://" <= s then 8 else 0
  }

  // mark is the index of the '?', end the index after the query.
  datatype Span = Span(mark: nat, end: nat)

  /** The match at the very start of s, if there is one. */
  function MatchAt(s: string): (m: Option<Span>)
    ensures m.Some? ==> 7 < m.value.mark && m.value.mark + 1 < m.value.end <= |s|
  {
    var p := Scheme(s);
    if p == 0 then None
    else
      var g := p + HostRun(s[p..]);
      if g == p || g == |s| || s[g] != '?' then None
      else
        var q := QueryRun(s[g + 1..]);
        if q == 0 then None else Some(Span(g, g + 1 + q))
  }

  /** ReplaceAllString(s, "${1}?<redacted>"): leftmost matches, no overlaps. */
  function RedactURLs(s: string): string {
    if s == "" then ""
    else match MatchAt(s)
      case Some(m) => s[..m.mark + 1] + Mark() + RedactURLs(s[m.end..])
      case None => [s[0]] + RedactURLs(s[1..])
  }

  // ----- what the pattern means, without a scanner

  /** s[..end] is in the language of the pattern, with the '?' of the replacement at mark. */
  ghost predicate InLanguage(s: string, mark: nat, end: nat) {
    exists p: nat :: InLanguageFrom(s, p, mark, end)
  }

  ghost predicate InLanguageFrom(s: string, p: nat, mark: nat, end: nat) {
    && ((p == 7 && "http://" <= s) || (p == 8 && "https://" <= s))
    && p < mark && mark + 1 < end <= |s|
    && (forall i :: p <= i < mark ==> IsHostChar(s[i]))
    && s[mark] == '?'
    && (forall i :: mark < i < end ==> !IsRegexpSpace(s[i]))
  }

  /** The scanner finds a match exactly when one exists, splits it in the only possible
      place, and takes the longest query. */
  lemma ScannerIsPattern(s: string)
    ensures MatchAt(s).Some? <==> exists mark: nat, end: nat :: InLanguage(s, mark, end)
    ensures MatchAt(s).Some? ==>
      && InLanguage(s, MatchAt(s).value.mark, MatchAt(s).value.end)
      && forall mark: nat, end: nat :: InLanguage(s, mark, end) ==>
           mark == MatchAt(s).value.mark && end <= MatchAt(s).value.end
  {
    if MatchAt(s).Some? {
      MatchInLanguage(s);
      assert InLanguage(s, MatchAt(s).value.mark, MatchAt(s).value.end);
    }
    forall mark: nat, end: nat | InLanguage(s, mark, end)
      ensures MatchAt(s).Some? && mark == MatchAt(s).value.mark && end <= MatchAt(s).value.end
    {
      var p :| InLanguageFrom(s, p, mark, end);
      LanguageIsMatched(s, p, mark, end);
    }
  }

  lemma MatchInLanguage(s: string)
    requires MatchAt(s).Some?
    ensures InLanguageFrom(s, Scheme(s), MatchAt(s).value.mark, MatchAt(s).value.end)
  {
  }

  lemma LanguageIsMatched(s: string, p: nat, mark: nat, end: nat)
    requires InLanguageFrom(s, p, mark, end)
    ensures MatchAt(s).Some? && mark == MatchAt(s).value.mark && end <= MatchAt(s).value.end
  {
  }

  lemma HostRunIs(s: string, n: nat)
    requires n <= |s| && (forall i :: 0 <= i < n ==> IsHostChar(s[i]))
    requires n < |s| ==> !IsHostChar(s[n])
    ensures HostRun(s) == n
  {
  }

  // ----- the text around the matches

  datatype Piece = Plain(c: char) | Url(kept: string, query: string)

  /** s cut into its leftmost matches and the single characters between them. */
  function Pieces(s: string): seq<Piece> {
    if s == "" then []
    else match MatchAt(s)
      case Some(m) => [Url(s[..m.mark + 1], s[m.mark + 1..m.end])] + Pieces(s[m.end..])
      case None => [Plain(s[0])] + Pieces(s[1..])
  }

  function RenderPiece(p: Piece, masked: bool): string {
    match p
    case Plain(c) => [c]
    case Url(kept, query) => kept + if masked then Mark() else query
  }

  function Render(ps: seq<Piece>, masked: bool): string {
    if |ps| == 0 then "" else RenderPiece(ps[0], masked) + Render(ps[1..], masked)
  }

  lemma RenderCons(p: Piece, ps: seq<Piece>, masked: bool)
    ensures Render([p] + ps, masked) == RenderPiece(p, masked) + Render(ps, masked)
  {
    assert ([p] + ps)[1..] == ps;
  }

  /** Redaction changes the matched queries and nothing else: the same pieces give the
      original with their queries, and the redacted text with the mark in their place. */
  lemma {:induction false} OnlyQueriesChange(s: string)
    ensures Render(Pieces(s), false) == s
    ensures Render(Pieces(s), true) == RedactURLs(s)
  {
    hide MatchAt, Mark, Render;
    if s == "" {
      RenderNone();
    } else {
      match MatchAt(s) {
        case Some(m) =>
          OnlyQueriesChange(s[m.end..]);
          RenderUrl(s, m);
        case None =>
          OnlyQueriesChange(s[1..]);
          RenderCons(Plain(s[0]), Pieces(s[1..]), true);
          RenderCons(Plain(s[0]), Pieces(s[1..]), false);
      }
    }
  }

  lemma RenderNone()
    ensures Render([], true) == Render([], false) == ""
  {
  }

  lemma RenderUrl(s: string, m: Span)
    requires MatchAt(s) == Some(m)
    requires Render(Pieces(s[m.end..]), false) == s[m.end..]
    ensures Render(Pieces(s), false) == s
    ensures Render(Pieces(s), true) == s[..m.mark + 1] + Mark() + Render(Pieces(s[m.end..]), true)
  {
    hide MatchAt, Mark, Render;
    var p, ps := Url(s[..m.mark + 1], s[m.mark + 1..m.end]), Pieces(s[m.end..]);
    RenderCons(p, ps, true);
    RenderCons(p, ps, false);
    assert s[..m.mark + 1] + s[m.mark + 1..m.end] + s[m.end..] == s;
  }

  ghost predicate IsMatch(p: Piece) {
    p.Url? ==> |p.kept| > 0 && InLanguage(p.kept + p.query, |p.kept| - 1, |p.kept + p.query|)
  }

  /** And what it takes for a URL with a query is one, from its scheme to its last character. */
  lemma {:induction false} OnlyMatchesChange(s: string)
    ensures forall k :: 0 <= k < |Pieces(s)| ==> IsMatch(Pieces(s)[k])
  {
    hide MatchAt, IsMatch;
    if s != "" {
      match MatchAt(s) {
        case Some(m) =>
          OnlyMatchesChange(s[m.end..]);
          HeadIsMatch(s);
        case None =>
          OnlyMatchesChange(s[1..]);
          PlainIsNoMatch(s[0]);
      }
    }
  }

  lemma HeadIsMatch(s: string)
    requires MatchAt(s).Some?
    ensures var m := MatchAt(s).value; IsMatch(Url(s[..m.mark + 1], s[m.mark + 1..m.end]))
  {
    MatchInLanguage(s);
    hide MatchAt;
    var m := MatchAt(s).value;
    var u := s[..m.mark + 1] + s[m.mark + 1..m.end];
    assert u == s[..m.end];
    assert InLanguageFrom(u, Scheme(s), m.mark, |u|);
  }

  lemma PlainIsNoMatch(c: char)
    ensures IsMatch(Plain(c))
  {
  }

  // ----- matching looks no further than it must

  /** s and t agree up to and including a '?' at g that is followed by a query in both. */
  ghost predicate AgreeThroughMark(s: string, t: string, g: nat) {
    && g + 1 < |s| && g + 1 < |t|
    && s[..g + 1] == t[..g + 1]
    && s[g] == '?'
    && !IsRegexpSpace(s[g + 1]) && !IsRegexpSpace(t[g + 1])
  }

  lemma SchemeAgrees(s: string, t: string, g: nat)
    requires g < |s| && g < |t| && s[..g + 1] == t[..g + 1]
    requires s[g] == '?' || IsRegexpSpace(s[g])
    ensures Scheme(s) == Scheme(t) && Scheme(s) <= g
  {
    assert forall i :: 0 <= i <= g ==> s[i] == s[..g + 1][i] == t[i];
    PrefixAgrees("http://", s, t, g);
    PrefixAgrees("https://", s, t, g);
  }

  lemma PrefixAgrees(p: string, s: string, t: string, g: nat)
    requires p == "http://" || p == "https://"
    requires g < |s| && g < |t| && (forall i :: 0 <= i <= g ==> s[i] == t[i])
    requires s[g] == '?' || IsRegexpSpace(s[g])
    ensures p <= s ==> |p| <= g
    ensures p <= s <==> p <= t
  {
    if p <= s && |p| > g { assert false; }
    if p <= t && |p| > g { assert false; }
    if |p| <= g { assert s[..|p|] == t[..|p|]; }
  }

  /** A run that stops within the common part is the same run. */
  lemma HostRunAgrees(s: string, t: string, p: nat, g: nat)
    requires p <= g < |s| && g < |t| && s[..g + 1] == t[..g + 1] && !IsHostChar(s[g])
    ensures HostRun(s[p..]) == HostRun(t[p..]) <= g - p
  {
    assert forall i :: 0 <= i <= g ==> s[i] == s[..g + 1][i] == t[i];
    var n := HostRun(s[p..]);
    assert s[p..][g - p] == s[g];
    assert n <= g - p;
    forall i | 0 <= i < n ensures IsHostChar(t[p..][i]) { assert t[p..][i] == s[p..][i]; }
    assert t[p..][n] == s[p..][n];
    HostRunIs(t[p..], n);
  }

  lemma MatchAgrees(s: string, t: string, g: nat)
    requires AgreeThroughMark(s, t, g)
    ensures MatchAt(s).Some? <==> MatchAt(t).Some?
  {
    SchemeAgrees(s, t, g);
    var p := Scheme(s);
    if p > 0 {
      HostRunAgrees(s, t, p, g);
      var h := p + HostRun(s[p..]);
      assert s[h] == s[..g + 1][h] == t[h];
      QueryStartAgrees(s, t, g, h);
    }
  }

  lemma QueryStartAgrees(s: string, t: string, g: nat, h: nat)
    requires AgreeThroughMark(s, t, g) && h <= g
    ensures QueryRun(s[h + 1..]) == 0 <==> QueryRun(t[h + 1..]) == 0
  {
  }

  // ----- normal form

  lemma ChangeAtMatch(s: string, mark: nat, rest: string)
    requires MatchAt(s).Some? && MatchAt(s).value.mark == mark
    ensures AgreeThroughMark(s, s[..mark + 1] + Mark() + rest, mark)
  {
  }

  /** Redaction either leaves a text alone or first changes it just after a '?'. */
  lemma {:induction false} FirstChange(s: string) returns (g: nat)
    ensures RedactURLs(s) == s || AgreeThroughMark(s, RedactURLs(s), g)
  {
    hide MatchAt, Mark, AgreeThroughMark;
    g := 0;
    if s != "" {
      match MatchAt(s) {
        case Some(m) =>
          g := m.mark;
          ChangeAtMatch(s, g, RedactURLs(s[m.end..]));
        case None =>
          g := FirstChange(s[1..]);
          assert s == [s[0]] + s[1..];
          if RedactURLs(s[1..]) != s[1..] {
            AgreeShifts(s[0], s[1..], RedactURLs(s[1..]), g);
            g := g + 1;
          }
      }
    }
  }

  lemma AgreeShifts(c: char, s: string, t: string, g: nat)
    requires AgreeThroughMark(s, t, g)
    ensures AgreeThroughMark([c] + s, [c] + t, g + 1)
  {
  }

  /** Redacting the tail never creates a match at the head. */
  lemma TailCreatesNoMatch(s: string)
    requires s != "" && MatchAt(s).None?
    ensures MatchAt([s[0]] + RedactURLs(s[1..])).None?
  {
    var t := [s[0]] + RedactURLs(s[1..]);
    var g := FirstChange(s[1..]);
    assert s == [s[0]] + s[1..];
    if t != s {
      AgreeShifts(s[0], s[1..], RedactURLs(s[1..]), g);
      MatchAgrees(s, t, g + 1);
    }
  }

  lemma QueryRunIs(s: string, n: nat)
    requires n <= |s| && (forall i :: 0 <= i < n ==> !IsRegexpSpace(s[i]))
    requires n < |s| ==> IsRegexpSpace(s[n])
    ensures QueryRun(s) == n
  {
  }

  /** What follows a match, or a redacted one, starts with a space or not at all. */
  ghost predicate AtBreak(s: string) {
    s == "" || IsRegexpSpace(s[0])
  }

  lemma BreakSurvives(s: string)
    requires AtBreak(s)
    ensures AtBreak(RedactURLs(s))
  {
  }

  /** A redacted URL followed by a break is again a match, with the mark as its query. */
  lemma RedactedUrlMatches(s: string, m: Span, rest: string)
    requires MatchAt(s) == Some(m) && AtBreak(rest)
    ensures MatchAt(s[..m.mark + 1] + Mark() + rest) == Some(Span(m.mark, m.mark + 1 + |Mark()|))
  {
    hide Mark;
    var t := s[..m.mark + 1] + Mark() + rest;
    var p := Scheme(s);
    assert t[..m.mark + 1] == s[..m.mark + 1];
    SchemeAgrees(s, t, m.mark);
    HostRunAgrees(s, t, p, m.mark);
    assert t[m.mark + 1..] == Mark() + rest;
    QueryRunIs(Mark() + rest, |Mark()|);
  }

  lemma MatchEndsAtBreak(s: string)
    requires MatchAt(s).Some?
    ensures AtBreak(s[MatchAt(s).value.end..])
  {
  }

  /** Redacting twice is redacting once. */
  lemma {:induction false} RedactTwice(s: string)
    ensures RedactURLs(RedactURLs(s)) == RedactURLs(s)
  {
    hide Mark, MatchAt;
    if s != "" {
      match MatchAt(s) {
        case Some(m) =>
          var rest := RedactURLs(s[m.end..]);
          MatchEndsAtBreak(s);
          BreakSurvives(s[m.end..]);
          RedactedUrlMatches(s, m, rest);
          RedactTwice(s[m.end..]);
          var t := s[..m.mark + 1] + Mark() + rest;
          assert t[..m.mark + 1] == s[..m.mark + 1];
          assert t[m.mark + 1 + |Mark()|..] == rest;
        case None =>
          TailCreatesNoMatch(s);
          RedactTwice(s[1..]);
          assert ([s[0]] + RedactURLs(s[1..]))[1..] == RedactURLs(s[1..]);
      }
    }
  }

  /** The normal form: whichever substring of t is in the language of the pattern, its
      query, taken as far as it goes, is the mark. */
  ghost predicate Masked(t: string) {
    forall i: nat, mark: nat, end: nat :: i <= |t| && InLanguageWhole(t[i..], mark, end) ==>
      t[i..][mark + 1..end] == Mark()
  }

  /** s[..end] is in the language, and no longer beginning of s is. */
  ghost predicate InLanguageWhole(s: string, mark: nat, end: nat) {
    InLanguage(s, mark, end) && (end == |s| || IsRegexpSpace(s[end]))
  }

  ghost predicate MaskedAt(t: string, i: nat)
    requires i <= |t|
  {
    match MatchAt(t[i..])
    case Some(m) => t[i..][m.mark + 1..m.end] == Mark()
    case None => true
  }

  lemma MaskedEverywhere(t: string)
    requires forall i :: 0 <= i <= |t| ==> MaskedAt(t, i)
    ensures Masked(t)
  {
    hide Mark, MatchAt;
    forall i: nat, mark: nat, end: nat | i <= |t| && InLanguageWhole(t[i..], mark, end)
      ensures t[i..][mark + 1..end] == Mark()
    {
      ScannerIsPattern(t[i..]);
      assert MaskedAt(t, i);
      var m := MatchAt(t[i..]).value;
      if end < m.end {
        assert IsRegexpSpace(t[i..][end]);
      }
    }
  }

  /** A prefix without an h hides nothing and reveals nothing. */
  lemma PrefixedIsMasked(p: string, s: string)
    requires 'h' !in p && Masked(s)
    ensures Masked(p + s)
  {
    hide Mark;
    var t := p + s;
    forall i: nat, mark: nat, end: nat | i <= |t| && InLanguageWhole(t[i..], mark, end)
      ensures t[i..][mark + 1..end] == Mark()
    {
      assert t[i..][0] == 'h';
      assert i >= |p|;
      assert t[i..] == s[i - |p|..];
    }
  }

  lemma MatchStartsWithH(s: string)
    requires MatchAt(s).Some?
    ensures |s| > 0 && s[0] == 'h'
  {
  }

  /** Inside a redacted URL every match ends at the same '?'. */
  lemma MaskedInsideUrl(t: string, mark: nat, i: nat)
    requires MatchAt(t) == Some(Span(mark, mark + 1 + |Mark()|))
    requires t[mark + 1..mark + 1 + |Mark()|] == Mark()
    requires i <= mark + |Mark()|
    ensures MaskedAt(t, i)
  {
    hide Mark, MatchAt;
    var u := t[i..];
    assert u[0] == t[i];
    if i > mark {
      assert t[i] == t[mark + 1..mark + 1 + |Mark()|][i - mark - 1];
      assert u[0] != 'h';
      if MatchAt(u).Some? {
        MatchStartsWithH(u);
        assert false;
      }
    } else if MatchAt(u).Some? {
      MarksCoincide(t, mark, i);
      var m := MatchAt(u).value;
      assert u[m.mark + 1..] == t[mark + 1..];
      MatchTakesWholeQuery(t);
      MatchTakesWholeQuery(u);
      assert u[m.mark + 1..m.end] == t[mark + 1..mark + 1 + |Mark()|];
    }
  }

  lemma MarksCoincide(t: string, mark: nat, i: nat)
    requires MatchAt(t).Some? && MatchAt(t).value.mark == mark
    requires i <= mark && MatchAt(t[i..]).Some?
    ensures MatchAt(t[i..]).value.mark == mark - i
  {
    hide MatchAt;
    var u := t[i..];
    var m := MatchAt(u).value;
    MatchInLanguage(t);
    MatchInLanguage(u);
    HostFromStart(t, mark);
    HostFromStart(u, m.mark);
    assert u[mark - i] == t[mark];
    assert u[m.mark] == t[i + m.mark];
  }

  lemma MatchTakesWholeQuery(s: string)
    requires MatchAt(s).Some?
    ensures MatchAt(s).value.end == MatchAt(s).value.mark + 1 + QueryRun(s[MatchAt(s).value.mark + 1..])
  {
  }

  /** The scheme consists of host characters too. */
  lemma HostFromStart(t: string, mark: nat)
    requires MatchAt(t).Some? && MatchAt(t).value.mark == mark
    ensures forall i :: 0 <= i < mark ==> IsHostChar(t[i])
  {
  }

  lemma {:induction false} MaskedAtEach(s: string, i: nat)
    requires i <= |RedactURLs(s)|
    ensures MaskedAt(RedactURLs(s), i)
  {
    hide Mark, MatchAt;
    if s != "" {
      var t := RedactURLs(s);
      match MatchAt(s) {
        case Some(m) =>
          var rest := RedactURLs(s[m.end..]);
          var head := s[..m.mark + 1] + Mark();
          assert t == head + rest;
          if i < |head| {
            MatchEndsAtBreak(s);
            BreakSurvives(s[m.end..]);
            RedactedUrlMatches(s, m, rest);
            assert t[m.mark + 1..m.mark + 1 + |Mark()|] == Mark();
            MaskedInsideUrl(t, m.mark, i);
          } else {
            MaskedAtEach(s[m.end..], i - |head|);
            assert t[i..] == rest[i - |head|..];
          }
        case None =>
          if i == 0 {
            TailCreatesNoMatch(s);
            assert t[0..] == t;
          } else {
            MaskedAtEach(s[1..], i - 1);
            assert t[i..] == RedactURLs(s[1..])[i - 1..];
          }
      }
    }
  }

  lemma RedactedIsMasked(s: string)
    ensures Masked(RedactURLs(s))
  {
    forall i | 0 <= i <= |RedactURLs(s)| ensures MaskedAt(RedactURLs(s), i) {
      MaskedAtEach(s, i);
    }
    MaskedEverywhere(RedactURLs(s));
  }

  // ----- a URL in a log

  predicate NoneOf(s: string, cs: set<char>) {
    forall i :: 0 <= i < |s| ==> s[i] !in cs
  }

  /** A URL comes out with its query replaced, up to the next white space; the text after it
      is redacted by itself. */
  lemma UrlIsRedacted(scheme: string, host: string, query: string, space: char, rest: string)
    requires scheme == "http://" || scheme == "https://"
    requires host != "" && NoneOf(host, {'\t', '\n', '\U{0C}', '\r', ' ', '?'})
    requires query != "" && NoneOf(query, {'\t', '\n', '\U{0C}', '\r', ' '})
    requires space in {'\t', '\n', '\U{0C}', '\r', ' '}
    ensures RedactURLs(scheme + host + "?" + query + [space] + rest) ==
      scheme + host + "?" + "<redacted>" + [space] + RedactURLs(rest)
  {
    hide MatchAt, RedactURLs, IsRegexpSpace, NoneOf, Mark;
    var head := scheme + host + "?";
    UrlIsMatched(scheme, host, query);
    LoneUrl(head, query);
    TheseAreSpaces(space);
    RedactAcrossSpace(head + query, space, rest);
    MarkText();
  }

  lemma LoneUrl(head: string, query: string)
    requires head != "" && MatchAt(head + query) == Some(Span(|head| - 1, |head + query|))
    ensures RedactURLs(head + query) == head + Mark()
  {
    hide MatchAt, Mark;
    var url := head + query;
    assert url[..|head|] == head && url[|url|..] == "";
    assert RedactURLs("") == "";
  }

  lemma TheseAreSpaces(c: char)
    requires c in {'\t', '\n', '\U{0C}', '\r', ' '}
    ensures IsRegexpSpace(c)
  {
  }

  lemma MarkText()
    ensures Mark() == "<redacted>"
  {
  }

  lemma UrlIsMatched(scheme: string, host: string, query: string)
    requires scheme == "http://" || scheme == "https://"
    requires host != "" && NoneOf(host, {'\t', '\n', '\U{0C}', '\r', ' ', '?'})
    requires query != "" && NoneOf(query, {'\t', '\n', '\U{0C}', '\r', ' '})
    ensures var url := scheme + host + "?" + query; MatchAt(url) == Some(Span(|scheme + host|, |url|))
  {
    var url, p, mark := scheme + host + "?" + query, |scheme|, |scheme + host|;
    assert scheme <= url;
    assert forall i :: p <= i < mark ==> url[i] == host[i - p];
    assert forall i :: mark < i < |url| ==> url[i] == query[i - mark - 1];
    assert InLanguageFrom(url, p, mark, |url|);
    LanguageIsMatched(url, p, mark, |url|);
  }

  // ----- lines

  /** No match crosses white space. */
  lemma MatchStopsAtSpace(a: string, w: char, b: string)
    requires a != "" && IsRegexpSpace(w)
    ensures MatchAt(a + [w] + b) == MatchAt(a)
  {
    SchemeStopsAtSpace(a, w, b);
    hide Scheme;
    var p := Scheme(a);
    if p > 0 {
      HostStopsAtSpace(a, w, b, p);
      var g := p + HostRun(a[p..]);
      var t := a + [w] + b;
      assert t[|a|] == w;
      if g < |a| {
        assert t[g] == a[g];
        QueryStopsAtSpace(a, w, b, g + 1);
      }
    }
  }

  lemma SchemeStopsAtSpace(a: string, w: char, b: string)
    requires IsRegexpSpace(w)
    ensures Scheme(a + [w] + b) == Scheme(a)
  {
    var t, u := a + [w] + b, a + [w];
    assert t[..|a| + 1] == u[..|a| + 1] && t[|a|] == w;
    SchemeAgrees(t, u, |a|);
    SchemeBeforeSpace(a, w);
  }

  lemma HostStopsAtSpace(a: string, w: char, b: string, from: nat)
    requires from <= |a| && IsRegexpSpace(w)
    ensures HostRun((a + [w] + b)[from..]) == HostRun(a[from..])
  {
    var t := a + [w] + b;
    var n := HostRun(a[from..]);
    forall i | 0 <= i < n ensures IsHostChar(t[from..][i]) { assert t[from..][i] == a[from..][i]; }
    assert t[from..][n] == if from + n < |a| then a[from..][n] else w;
    HostRunIs(t[from..], n);
  }

  lemma SchemeBeforeSpace(a: string, w: char)
    requires IsRegexpSpace(w)
    ensures Scheme(a + [w]) == Scheme(a)
  {
    PrefixBeforeSpace("http://", a, w);
    PrefixBeforeSpace("https://", a, w);
  }

  lemma PrefixBeforeSpace(p: string, a: string, w: char)
    requires IsRegexpSpace(w) && (p == "http://" || p == "https://")
    ensures p <= a + [w] <==> p <= a
  {
    assert (a + [w])[|a|] == w;
    if p <= a + [w] {
      if |p| > |a| {
        assert false;
      }
      assert p == (a + [w])[..|p|] == a[..|p|];
    }
    if p <= a {
      assert p == a[..|p|] == (a + [w])[..|p|];
    }
  }

  lemma QueryStopsAtSpace(a: string, w: char, b: string, from: nat)
    requires from <= |a| && IsRegexpSpace(w)
    ensures QueryRun((a + [w] + b)[from..]) == QueryRun(a[from..])
  {
    var t := a + [w] + b;
    var n := QueryRun(a[from..]);
    forall i | 0 <= i < n ensures !IsRegexpSpace(t[from..][i]) { assert t[from..][i] == a[from..][i]; }
    assert t[from..][n] == if from + n < |a| then a[from..][n] else w;
    QueryRunIs(t[from..], n);
  }

  /** Redaction distributes over any white space, newlines in particular. */
  lemma {:induction false} RedactAcrossSpace(a: string, w: char, b: string)
    requires IsRegexpSpace(w)
    ensures RedactURLs(a + [w] + b) == RedactURLs(a) + [w] + RedactURLs(b)
  {
    hide Mark, MatchAt;
    var t := a + [w] + b;
    if a == "" {
      assert t == [w] + b && t[1..] == b;
      if MatchAt(t).Some? { MatchStartsWithH(t); }
    } else {
      MatchStopsAtSpace(a, w, b);
      match MatchAt(a) {
        case Some(m) =>
          RedactAcrossSpace(a[m.end..], w, b);
          SplitAcrossSpace(a, w, b, m.mark + 1, m.end);
        case None =>
          RedactAcrossSpace(a[1..], w, b);
          SplitAcrossSpace(a, w, b, 1, 1);
      }
    }
  }

  lemma SplitAcrossSpace(a: string, w: char, b: string, i: nat, j: nat)
    requires 0 < |a| && i <= |a| && j <= |a|
    ensures (a + [w] + b)[0] == a[0]
    ensures (a + [w] + b)[..i] == a[..i]
    ensures (a + [w] + b)[j..] == a[j..] + [w] + b
  {
  }

  lemma {:induction false} RedactKeepsLine(s: string)
    requires '\n' !in s
    ensures '\n' !in RedactURLs(s)
  {
    if s != "" {
      match MatchAt(s) {
        case Some(m) => RedactKeepsLine(s[m.end..]);
        case None => RedactKeepsLine(s[1..]);
      }
    }
  }

  /** Cutting the first line and redacting commute. */
  lemma CutAndRedactCommute(s: string)
    ensures RedactURLs(FirstOf(s)) == FirstOf(RedactURLs(s))
  {
    var line := FirstOf(s);
    RedactKeepsLine(line);
    if |line| < |s| {
      var rest := s[|line| + 1..];
      assert s == line + "\n" + rest;
      RedactAcrossSpace(line, '\n', rest);
      FirstOfIs(RedactURLs(line), RedactURLs(rest));
    } else {
      assert line == s;
      FirstOfIs(RedactURLs(line), "");
    }
  }

  // ----- firstLine

  /** The diagnostic that reaches a client: the first line of the trimmed stderr, or the
      run error when there is none. */
  function FirstLine(stderr: string, runErr: Option<string>): string {
    var s := TrimSpace(stderr);
    if s == "" then
      match runErr
      case Some(e) => RedactURLs(e)
      case None => "unknown error"
    else RedactURLs(FirstOf(s))
  }

  /** firstLine could redact before cutting, and Normalize's extra redaction of the run
      error changes nothing. */
  lemma FirstLineCommutes(stderr: string, runErr: Option<string>)
    ensures TrimSpace(stderr) != "" ==>
      FirstLine(stderr, runErr) == FirstOf(RedactURLs(TrimSpace(stderr)))
    ensures runErr.Some? ==>
      FirstLine(stderr, Some(RedactURLs(runErr.value))) == FirstLine(stderr, runErr)
  {
    CutAndRedactCommute(TrimSpace(stderr));
    if runErr.Some? {
      RedactTwice(runErr.value);
    }
  }

  /** Text without a question mark is left alone. */
  lemma {:induction false} NoQueryNoChange(s: string)
    requires '?' !in s
    ensures RedactURLs(s) == s
  {
    if s != "" {
      if MatchAt(s).Some? {
        MatchHasMark(s);
        assert false;
      }
      NoQueryNoChange(s[1..]);
    }
  }

  lemma MatchHasMark(s: string)
    requires MatchAt(s).Some?
    ensures '?' in s
  {
    assert s[MatchAt(s).value.mark] == '?';
  }

  /** What reaches the caller: the first line of what the child said, or, when it said
      nothing, the run error; word for word, if it has no query to hide. */
  lemma PlainDiagnosticsPassThrough(blank: string, line: string, rest: string, runErr: Option<string>)
    requires TrimSpace(blank) == "" && '?' !in line
    requires TrimSpace(line + rest) == line + rest && line != "" && '\n' !in line
    requires rest == "" || rest[0] == '\n'
    ensures FirstLine(line + rest, runErr) == line
    ensures FirstLine(blank, Some(line)) == line
    ensures FirstLine(blank, None) == "unknown error"
  {
    hide TrimSpace, RedactURLs;
    NoQueryNoChange(line);
    if rest == "" {
      assert line + rest == line;
      FirstOfIs(line, "");
    } else {
      assert line + rest == line + "\n" + rest[1..];
      FirstOfIs(line, rest[1..]);
    }
  }

  /** Whatever the child wrote, the diagnostic is masked. */
  lemma FirstLineIsMasked(stderr: string, runErr: Option<string>)
    ensures Masked(FirstLine(stderr, runErr))
  {
    if TrimSpace(stderr) != "" {
      RedactedIsMasked(FirstOf(TrimSpace(stderr)));
    } else if runErr.Some? {
      RedactedIsMasked(runErr.value);
    } else {
      PlainIsMasked("unknown error");
    }
  }

  lemma PlainIsMasked(s: string)
    requires 'h' !in s
    ensures Masked(s)
  {
    forall i | 0 <= i <= |s| ensures MaskedAt(s, i) {
      if MatchAt(s[i..]).Some? {
        MatchStartsWithH(s[i..]);
        assert false;
      }
    }
    MaskedEverywhere(s);
  }
}
