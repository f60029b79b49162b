/** The few string operations the service needs, with Go's meanings. */
module Text {

  // ----- character classes

  /** Go's unicode.IsSpace, which strings.TrimSpace uses. */
  predicate IsSpace(c: char) {
    || c == '\t' || c == '\n' || c == '\U{0B}' || c == '\U{0C}' || c == '\r' || c == ' '
    || c == '\U{85}' || c == '\U{A0}' || c == '\U{1680}' || '\U{2000}' <= c <= '\U{200A}'
    || c == '\U{2028}' || c == '\U{2029}' || c == '\U{202F}' || c == '\U{205F}' || c == '\U{3000}'
  }

  /** The \s of a Go regular expression: five characters, the vertical tab not among them. */
  predicate IsRegexpSpace(c: char) {
    c == '\t' || c == '\n' || c == '\U{0C}' || c == '\r' || c == ' '
  }

  predicate IsDigit(c: char) {
    '0' <= c <= '9'
  }

  // ----- prefixes, suffixes, containment

  predicate HasPrefix(s: string, p: string) {
    p <= s
  }

  predicate HasSuffix(s: string, p: string) {
    |p| <= |s| && s[|s| - |p|..] == p
  }

  function TrimSuffix(s: string, p: string): string {
    if HasSuffix(s, p) then s[..|s| - |p|] else s
  }

  /** strings.Contains, searched from the left. */
  predicate Contains(s: string, m: string) {
    HasPrefix(s, m) || (|s| > 0 && Contains(s[1..], m))
  }

  lemma {:induction false} ContainsAt(s: string, m: string, i: nat)
    requires i + |m| <= |s| && s[i..i + |m|] == m
    ensures Contains(s, m)
  {
    if i > 0 {
      assert s[1..][i - 1..i - 1 + |m|] == m;
      ContainsAt(s[1..], m, i - 1);
    }
  }

  lemma {:induction false} ContainsWhere(s: string, m: string) returns (i: nat)
    requires Contains(s, m)
    ensures i + |m| <= |s| && s[i..i + |m|] == m
  {
    if HasPrefix(s, m) {
      i := 0;
    } else {
      var j := ContainsWhere(s[1..], m);
      i := j + 1;
      assert s[i..i + |m|] == s[1..][j..j + |m|];
    }
  }

  /** More text on either side never hides an occurrence. */
  lemma ContainsExtends(before: string, s: string, after: string, m: string)
    requires Contains(s, m)
    ensures Contains(before + s + after, m)
  {
    var i := ContainsWhere(s, m);
    var t := before + s + after;
    assert t[|before| + i..|before| + i + |m|] == m;
    ContainsAt(t, m, |before| + i);
  }

  // ----- trimming

  function TrimLeft(s: string): string {
    if |s| > 0 && IsSpace(s[0]) then TrimLeft(s[1..]) else s
  }

  function TrimRight(s: string): string {
    if |s| > 0 && IsSpace(s[|s| - 1]) then TrimRight(s[..|s| - 1]) else s
  }

  function TrimSpace(s: string): string {
    TrimRight(TrimLeft(s))
  }

  lemma {:induction false} TrimLeftAppend(a: string, b: string)
    ensures TrimLeft(a + b) == if TrimLeft(a) == "" then TrimLeft(b) else TrimLeft(a) + b
  {
    if a == "" {
      assert a + b == b;
    } else if IsSpace(a[0]) {
      assert (a + b)[1..] == a[1..] + b;
      TrimLeftAppend(a[1..], b);
    }
  }

  lemma {:induction false} TrimRightAppend(a: string, b: string)
    ensures TrimRight(a + b) == if TrimRight(b) == "" then TrimRight(a) else a + TrimRight(b)
  {
    if b == "" {
      assert a + b == a;
    } else if IsSpace(b[|b| - 1]) {
      assert (a + b)[..|a + b| - 1] == a + b[..|b| - 1];
      TrimRightAppend(a, b[..|b| - 1]);
    }
  }

  /** Trimming takes the white space off both ends, and nothing else. */
  lemma TrimSpaceIs(s: string) returns (i: nat, j: nat)
    ensures i <= j <= |s| && TrimSpace(s) == s[i..j]
    ensures forall k :: 0 <= k < i || j <= k < |s| ==> IsSpace(s[k])
    ensures i < j ==> !IsSpace(s[i]) && !IsSpace(s[j - 1])
  {
    i := TrimLeftIs(s);
    j := TrimRightIs(s[i..]);
    j := i + j;
    assert s[i..][..j - i] == s[i..j];
    forall k | j <= k < |s| ensures IsSpace(s[k]) { assert s[k] == s[i..][k - i]; }
  }

  lemma {:induction false} TrimLeftIs(s: string) returns (i: nat)
    ensures i <= |s| && TrimLeft(s) == s[i..]
    ensures forall k :: 0 <= k < i ==> IsSpace(s[k])
    ensures i < |s| ==> !IsSpace(s[i])
  {
    i := 0;
    if |s| > 0 && IsSpace(s[0]) {
      i := TrimLeftIs(s[1..]);
      i := i + 1;
    }
  }

  lemma {:induction false} TrimRightIs(s: string) returns (j: nat)
    ensures j <= |s| && TrimRight(s) == s[..j]
    ensures forall k :: j <= k < |s| ==> IsSpace(s[k])
    ensures j > 0 ==> !IsSpace(s[j - 1])
  {
    j := |s|;
    if |s| > 0 && IsSpace(s[|s| - 1]) {
      j := TrimRightIs(s[..|s| - 1]);
    }
  }

  // ----- lines

  /** The text before the first newline. */
  function FirstOf(s: string): (r: string)
    ensures r <= s && '\n' !in r
    ensures |r| < |s| ==> s[|r|] == '\n'
  {
    if |s| == 0 || s[0] == '\n' then "" else [s[0]] + FirstOf(s[1..])
  }

  lemma {:induction false} FirstOfIs(line: string, rest: string)
    requires '\n' !in line
    ensures FirstOf(line + "\n" + rest) == line
    ensures FirstOf(line) == line
  {
    if line == "" {
      assert line + "\n" + rest == "\n" + rest;
    } else {
      assert (line + "\n" + rest)[1..] == line[1..] + "\n" + rest;
      FirstOfIs(line[1..], rest);
    }
  }

  // ----- case

  /** Go's lower case, as far as the result is ASCII: the dotted capital I and the Kelvin
      sign are the only characters outside ASCII whose lower case is inside. */
  function Lower(c: char): char {
    if 'A' <= c <= 'Z' then (c as int + 32) as char
    else if c == '\U{130}' then 'i'
    else if c == '\U{212A}' then 'k'
    else c
  }

  function ToLower(s: string): (r: string)
    ensures |r| == |s|
    ensures forall i :: 0 <= i < |s| ==> r[i] == Lower(s[i])
  {
    seq(|s|, i requires 0 <= i < |s| => Lower(s[i]))
  }
}
