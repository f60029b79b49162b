/** The edges of the model's reply: code fences around the JSON, and offsets that are not
    integers an int64 can hold. */
module Reply {
  import opened Text
  import opened Wrappers
  import opened Decimal
  import Rebase

  // ----- stripCodeFence

  const FENCE := "```"

  /** The rest of s after its first newline; all of s if it has none. */
  function AfterFirstLine(s: string): string {
    var line := FirstOf(s);
    if |line| < |s| then s[|line| + 1..] else s
  }

  function Stripped(s: string): string {
    if !HasPrefix(s, FENCE) then s
    else TrimSpace(TrimSuffix(TrimSpace(AfterFirstLine(s)), FENCE))
  }

  method StripCodeFence(text: string) returns (s: string)
    ensures s == Stripped(text)
    ensures !HasPrefix(text, FENCE) ==> s == text
  {
    s := text;
    if !HasPrefix(s, FENCE) {
      return s;
    }
    var line := FirstOf(s);
    if |line| < |s| {
      s := s[|line| + 1..];
    }
    s := TrimSuffix(TrimSpace(s), FENCE);
    s := TrimSpace(s);
  }

  /** A model's fence: an info string such as json, the payload, and the closing fence. */
  function Fenced(info: string, payload: string): string {
    FENCE + info + "\n" + payload + "\n" + FENCE
  }

  /** Stripping undoes fencing up to the white space around the payload, whatever the
      payload contains, backticks at its end included. */
  lemma StripUndoesFence(info: string, payload: string)
    requires '\n' !in info
    ensures Stripped(Fenced(info, payload)) == TrimSpace(payload)
  {
    var body := payload + "\n" + FENCE;
    assert Fenced(info, payload) == (FENCE + info) + "\n" + body;
    FirstOfIs(FENCE + info, body);
    assert AfterFirstLine(Fenced(info, payload)) == body;
    BodyTrims(payload);
    hide TrimLeft, TrimRight, FENCE;
    var left := TrimLeft(payload);
    if left == "" {
      assert TrimSuffix(FENCE, FENCE) == "";
      assert TrimRight(left) == "" by { EmptyTrims(); }
      EmptyTrims();
    } else {
      assert TrimSuffix(left + "\n" + FENCE, FENCE) == left + "\n";
      NewlineTrims(payload);
    }
  }

  /** Nothing around a fence is white space. */
  lemma FencedIsTrimmed(info: string, payload: string)
    ensures TrimSpace(Fenced(info, payload)) == Fenced(info, payload)
  {
    var body := info + "\n" + payload + "\n";
    assert Fenced(info, payload) == FENCE + body + FENCE;
    BetweenFences(body);
  }

  lemma BetweenFences(body: string)
    ensures TrimSpace(FENCE + body + FENCE) == FENCE + body + FENCE
  {
    assert FENCE[0] == FENCE[2] == '`';
    assert (FENCE + body + FENCE)[0] == '`';
    TrimRightAppend(FENCE + body, FENCE);
  }

  /** A fence that is not closed is taken off too. */
  lemma StripUnclosed(info: string, payload: string)
    requires '\n' !in info && !HasSuffix(TrimSpace(payload), FENCE)
    ensures Stripped(FENCE + info + "\n" + payload) == TrimSpace(TrimSpace(payload))
  {
    hide TrimSpace, HasSuffix;
    assert FENCE + info + "\n" + payload == (FENCE + info) + "\n" + payload;
    FirstOfIs(FENCE + info, payload);
  }

  /** On a single line only the closing fence is. */
  lemma StripOneLine(body: string)
    requires '\n' !in body
    ensures Stripped(FENCE + body + FENCE) == TrimSpace(FENCE + body)
  {
    var text := FENCE + body + FENCE;
    FirstOfIs(text, "");
    BetweenFences(body);
    assert TrimSuffix(text, FENCE) == FENCE + body;
    hide TrimLeft, TrimRight;
  }

  lemma EmptyTrims()
    ensures TrimLeft("") == "" && TrimRight("") == ""
  {
  }

  /** What is left after the fence line, once trimmed. */
  lemma BodyTrims(payload: string)
    ensures TrimSpace(payload + "\n" + FENCE) ==
      if TrimLeft(payload) == "" then FENCE else TrimLeft(payload) + "\n" + FENCE
  {
    FenceTrims();
    hide TrimLeft, TrimRight, FENCE;
    assert payload + "\n" + FENCE == payload + ("\n" + FENCE);
    TrimLeftAppend(payload, "\n" + FENCE);
    var left := TrimLeft(payload);
    assert left + ("\n" + FENCE) == left + "\n" + FENCE;
    TrimRightAppend(left + "\n", FENCE);
  }

  lemma FenceTrims()
    ensures TrimLeft("\n" + FENCE) == FENCE && TrimRight(FENCE) == FENCE && FENCE != ""
  {
    assert ("\n" + FENCE)[1..] == FENCE;
    assert FENCE[2] == '`';
  }

  lemma NewlineTrims(payload: string)
    requires TrimLeft(payload) != ""
    ensures TrimSpace(TrimLeft(payload) + "\n") == TrimSpace(payload)
  {
  }

  /** So a fenced payload comes back unchanged exactly when it was trimmed to begin with. */
  lemma StripReturnsPayloadIff(info: string, payload: string)
    requires '\n' !in info
    ensures Stripped(Fenced(info, payload)) == payload <==> TrimSpace(payload) == payload
  {
    StripUndoesFence(info, payload);
  }

  // ----- lenientMs

  // A raw JSON value in an offset's place, as far as lenientMs tells values apart. Number
  // holds the text of a number token, for which section 6 of RFC 8259 sets no length
  // limit; Other is any value that json.Number refuses.
  datatype RawOffset = Absent | Null | Number(text: string) | Other

  /** The integer a raw value denotes, if it denotes one that an int64 holds. */
  function Offset(raw: RawOffset): Option<Int64> {
    match raw
    case Number(text) =>
      (match IntegerOf(text)
       case Some(v) => if FitsInt64(v) then var w: Int64 := v; Some(w) else None
       case None => None)
    case _ => None
  }

  method LenientMs(raw: RawOffset) returns (r: Option<Int64>)
    ensures r == Offset(raw)
    ensures r.Some? <==> raw.Number? && IntegerOf(raw.text).Some? && FitsInt64(IntegerOf(raw.text).value)
    ensures r.Some? ==> r.value == IntegerOf(raw.text).value
  {
    if raw.Absent? || raw.Other? {
      return None;
    }
    // null leaves the decoded number empty
    var n := if raw.Number? then raw.text else "";
    r := ParseInt64(n);
  }

  /** Printing an int64 and reading it leniently is the identity; printing any other
      integer, however long, reads as missing. */
  lemma LenientInvertsPrinting(v: int)
    ensures Offset(Number(Print(v))) == if FitsInt64(v) then Some(v) else None
  {
    PrintReadsBack(v);
  }

  /** An overflowing digit run gives exactly the window bound, for start and for end. */
  lemma OverflowFallsBackToWindow(u: Rebase.ModelUtterance, seg: Rebase.Segment, text: string)
    requires seg.startMs <= seg.endMs && Overflowing(text)
    ensures Rebase.Rebased(u.(startMs := Offset(Number(text))), seg).startMs == seg.startMs
    ensures Rebase.Rebased(u.(endMs := Offset(Number(text))), seg).endMs == seg.endMs
  {
  }

  predicate Overflowing(text: string) {
    IntegerOf(text).Some? && !FitsInt64(IntegerOf(text).value)
  }
}
