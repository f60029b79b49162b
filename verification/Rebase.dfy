/** Utterance offsets, from the model's segment-relative times to the asset timeline, in
    Go's wrapping 64-bit arithmetic. */
module Rebase {
  import opened Wrappers
  import opened Decimal

  datatype Segment = Segment(startMs: Int64, endMs: Int64, languageHint: string)

  datatype ModelUtterance = ModelUtterance(
    text: string, startMs: Option<Int64>, endMs: Option<Int64>,
    confidence: Option<real>, language: string, isSpeech: Option<bool>)

  datatype Utterance = Utterance(
    text: string, startMs: Int64, endMs: Int64, confidence: real, language: string, isSpeech: bool)

  function Clamp(v: Int64, lo: Int64, hi: Int64): Int64 {
    var m := if v < lo then lo else v;
    if m > hi then hi else m
  }

  predicate Positive(offset: Option<Int64>) {
    offset.Some? && offset.value > 0
  }

  /** A positive offset, added to the segment start as Go adds; otherwise the fallback. */
  function Shifted(offset: Option<Int64>, seg: Segment, fallback: Int64): Int64 {
    if Positive(offset) then Wrap(seg.startMs + offset.value) else fallback
  }

  /** What rebaseOne returns; RebaseOne below is the code. */
  function Rebased(u: ModelUtterance, seg: Segment): Utterance {
    var start := Clamp(Shifted(u.startMs, seg, seg.startMs), seg.startMs, seg.endMs);
    var end := Clamp(Shifted(u.endMs, seg, seg.endMs), seg.startMs, seg.endMs);
    Utterance(
      u.text, start, if end < start then start else end,
      match u.confidence { case Some(c) => c case None => -1.0 },
      u.language,
      match u.isSpeech { case Some(b) => b case None => true })
  }

  function FallbackUtterances(seg: Segment): seq<Utterance> {
    [Utterance("", seg.startMs, seg.endMs, -1.0, seg.languageHint, false)]
  }

  function RebasedAll(utterances: seq<ModelUtterance>, seg: Segment): seq<Utterance> {
    if |utterances| == 0 then FallbackUtterances(seg)
    else seq(|utterances|, i requires 0 <= i < |utterances| => Rebased(utterances[i], seg))
  }

  /** What the model reports about an utterance comes back as it is; what it leaves out is
      unknown confidence, and speech. */
  predicate Keeps(r: Utterance, u: ModelUtterance) {
    && r.text == u.text && r.language == u.language
    && (if u.confidence.Some? then r.confidence == u.confidence.value else r.confidence == -1.0)
    && (if u.isSpeech.Some? then r.isSpeech == u.isSpeech.value else r.isSpeech)
  }

  /** The span is the one of unbounded arithmetic, unless a sum wraps; a start that is not
      reported, or not positive, is the window's. */
  predicate Places(r: Utterance, u: ModelUtterance, seg: Segment) {
    && InWindow(r, seg)
    && (!Positive(u.startMs) ==> r.startMs == seg.startMs)
    && (!Positive(u.endMs) ==> r.endMs == seg.endMs)
    && (!Wraps(u.startMs, seg) ==> r.startMs == IdealStart(u, seg))
    && (!Wraps(u.startMs, seg) && !Wraps(u.endMs, seg) ==> r.endMs == IdealEnd(u, seg))
  }

  lemma RebasedIsPlaced(u: ModelUtterance, seg: Segment)
    ensures Keeps(Rebased(u, seg), u)
    ensures seg.startMs <= seg.endMs ==> Places(Rebased(u, seg), u, seg)
  {
  }

  method RebaseOne(u: ModelUtterance, seg: Segment) returns (r: Utterance)
    ensures r == Rebased(u, seg)
    ensures Keeps(r, u)
    ensures seg.startMs <= seg.endMs ==> Places(r, u, seg)
  {
    var start := seg.startMs;
    if u.startMs.Some? && u.startMs.value > 0 {
      start := Wrap(seg.startMs + u.startMs.value);
    }
    var end := seg.endMs;
    if u.endMs.Some? && u.endMs.value > 0 {
      end := Wrap(seg.startMs + u.endMs.value);
    }
    start := Clamp(start, seg.startMs, seg.endMs);
    end := Clamp(end, seg.startMs, seg.endMs);
    if end < start {
      end := start;
    }
    var confidence := -1.0;
    if u.confidence.Some? {
      confidence := u.confidence.value;
    }
    var isSpeech := true;
    if u.isSpeech.Some? {
      isSpeech := u.isSpeech.value;
    }
    r := Utterance(u.text, start, end, confidence, u.language, isSpeech);
    RebasedIsPlaced(u, seg);
    hide Keeps, Places;
  }

  method RebaseUtterances(utterances: seq<ModelUtterance>, seg: Segment) returns (out: seq<Utterance>)
    ensures out == RebasedAll(utterances, seg)
    ensures |out| == if |utterances| == 0 then 1 else |utterances|
    ensures |utterances| == 0 ==>
      && out[0].text == "" && out[0].language == seg.languageHint
      && out[0].startMs == seg.startMs && out[0].endMs == seg.endMs
      && out[0].confidence == -1.0 && !out[0].isSpeech
    ensures forall i :: 0 <= i < |utterances| ==> Keeps(out[i], utterances[i])
    ensures seg.startMs <= seg.endMs ==>
      && (forall i :: 0 <= i < |utterances| ==> Places(out[i], utterances[i], seg))
      && (forall i :: 0 <= i < |out| ==> InWindow(out[i], seg))
  {
    if |utterances| == 0 {
      return FallbackUtterances(seg);
    }
    out := [];
    for i := 0 to |utterances|
      invariant |out| == i
      invariant forall j :: 0 <= j < i ==> out[j] == Rebased(utterances[j], seg) && Keeps(out[j], utterances[j])
      invariant seg.startMs <= seg.endMs ==> forall j :: 0 <= j < i ==> Places(out[j], utterances[j], seg)
    {
      hide Rebased, Keeps, Places;
      var r := RebaseOne(utterances[i], seg);
      out := out + [r];
    }
    if seg.startMs <= seg.endMs {
      AllInWindow(utterances, seg);
    }
  }

  // ----- sound for every int64

  predicate InWindow(u: Utterance, seg: Segment) {
    seg.startMs <= u.startMs <= u.endMs <= seg.endMs
  }

  /** Whatever the model reports, and however the sums wrap, every utterance is a span
      inside its window. */
  lemma AllInWindow(utterances: seq<ModelUtterance>, seg: Segment)
    requires seg.startMs <= seg.endMs
    ensures forall i :: 0 <= i < |RebasedAll(utterances, seg)| ==> InWindow(RebasedAll(utterances, seg)[i], seg)
  {
  }

  // ----- agreement with unbounded arithmetic

  function IdealStart(u: ModelUtterance, seg: Segment): int {
    var shifted := seg.startMs + if Positive(u.startMs) then u.startMs.value else 0;
    if shifted > seg.endMs then seg.endMs else shifted
  }

  /** The window end when no positive end is reported, and never before the start. */
  function IdealEnd(u: ModelUtterance, seg: Segment): int {
    var shifted := if Positive(u.endMs) then seg.startMs + u.endMs.value else seg.endMs;
    var capped := if shifted > seg.endMs then seg.endMs else shifted;
    if capped < IdealStart(u, seg) then IdealStart(u, seg) else capped
  }

  predicate Wraps(offset: Option<Int64>, seg: Segment) {
    Positive(offset) && seg.startMs + offset.value >= TWO_63
  }

  predicate ReachesEnd(offset: Option<Int64>, seg: Segment) {
    seg.startMs == seg.endMs || (Positive(offset) && seg.startMs + offset.value >= seg.endMs)
  }

  /** The wrapping code agrees with unbounded arithmetic exactly when no sum wraps, but for
      two cases where a wrapped sum does no harm: an empty window, and a wrapped end whose
      start already sits at the window end. A wrapped sum lands on the window start. */
  lemma ExactIffNoHarmfulWrap(u: ModelUtterance, seg: Segment)
    requires seg.startMs <= seg.endMs
    ensures var r := Rebased(u, seg);
      (r.startMs == IdealStart(u, seg) && r.endMs == IdealEnd(u, seg)) <==>
        (Wraps(u.startMs, seg) ==> seg.startMs == seg.endMs) &&
        (Wraps(u.endMs, seg) ==> ReachesEnd(u.startMs, seg))
    ensures Wraps(u.startMs, seg) ==> Rebased(u, seg).startMs == seg.startMs
  {
  }

  /** A start whose sum wraps, in a window of one millisecond: the code puts it at the
      window's start, unbounded arithmetic at its end. */
  lemma WrappedSumIsElsewhere() returns (u: ModelUtterance, seg: Segment)
    ensures seg.startMs <= seg.endMs
    ensures Rebased(u, seg).startMs == 1 && IdealStart(u, seg) == 2
  {
    u := ModelUtterance("", Some(TWO_63 - 1), None, None, "", None);
    seg := Segment(1, 2, "");
  }

  // ----- the schema's bounds

  /** responseSchema's bounds for both offsets, on windows the server lets through. */
  function OffsetMaximum(seg: Segment): int {
    var w := Wrap(seg.endMs - seg.startMs);
    if w < 0 then 0 else w
  }

  predicate WithinSchema(offset: Option<Int64>, seg: Segment) {
    offset.Some? && 0 <= offset.value <= OffsetMaximum(seg)
  }

  /** Under the schema's bounds nothing wraps or is clamped: starts are exact shifts, and
      positive ends are too, except that an end before its start is raised to it. */
  lemma SchemaMakesShiftsExact(u: ModelUtterance, seg: Segment)
    requires 0 <= seg.startMs < seg.endMs
    requires WithinSchema(u.startMs, seg) && WithinSchema(u.endMs, seg)
    ensures !Wraps(u.startMs, seg) && !Wraps(u.endMs, seg)
    ensures var r := Rebased(u, seg);
      && r.startMs == seg.startMs + u.startMs.value
      && r.endMs == (if u.endMs.value == 0 then seg.endMs
                     else if u.endMs.value < u.startMs.value then r.startMs
                     else seg.startMs + u.endMs.value)
  {
  }

  // ----- a whole asset

  datatype Window = Window(seg: Segment, reply: seq<ModelUtterance>)

  /** Windows in timeline order, each beginning no earlier than its predecessor ends. */
  predicate Consecutive(ws: seq<Window>) {
    && (forall k :: 0 <= k < |ws| ==> ws[k].seg.startMs <= ws[k].seg.endMs)
    && (forall k :: 0 < k < |ws| ==> ws[k - 1].seg.endMs <= ws[k].seg.startMs)
  }

  function Output(w: Window): seq<Utterance> {
    RebasedAll(w.reply, w.seg)
  }

  lemma {:induction false} WindowsAreOrdered(ws: seq<Window>, i: nat, j: nat)
    requires Consecutive(ws) && i < j < |ws|
    ensures ws[i].seg.endMs <= ws[j].seg.startMs
  {
    if i + 1 < j {
      WindowsAreOrdered(ws, i, j - 1);
      assert ws[j - 1].seg.startMs <= ws[j - 1].seg.endMs <= ws[j].seg.startMs;
    }
  }

  /** No utterance of an earlier segment ends after one of a later segment starts. */
  lemma SegmentsDoNotInterleave(ws: seq<Window>, i: nat, j: nat, a: nat, b: nat)
    requires Consecutive(ws) && i < j < |ws|
    requires a < |Output(ws[i])| && b < |Output(ws[j])|
    ensures Output(ws[i])[a].endMs <= Output(ws[j])[b].startMs
  {
    WindowsAreOrdered(ws, i, j);
    AllInWindow(ws[i].reply, ws[i].seg);
    AllInWindow(ws[j].reply, ws[j].seg);
    hide RebasedAll;
    assert InWindow(Output(ws[i])[a], ws[i].seg);
    assert InWindow(Output(ws[j])[b], ws[j].seg);
  }

  function ReportedStart(u: ModelUtterance): int {
    if Positive(u.startMs) then u.startMs.value else 0
  }

  /** No start of the reply wraps, and the starts, missing ones read as 0, do not go back. */
  predicate Orderly(w: Window) {
    && (forall k :: 0 <= k < |w.reply| ==> !Wraps(w.reply[k].startMs, w.seg))
    && (forall j, k :: 0 <= j < k < |w.reply| ==> ReportedStart(w.reply[j]) <= ReportedStart(w.reply[k]))
  }

  predicate SortedByStart(us: seq<Utterance>) {
    forall j, k :: 0 <= j < k < |us| ==> us[j].startMs <= us[k].startMs
  }

  lemma OrderlyOutputIsSorted(w: Window)
    requires Orderly(w) && w.seg.startMs <= w.seg.endMs
    ensures SortedByStart(Output(w))
  {
  }

  /** The transcript of the asset: the outputs of all windows, one after the other. */
  function Transcript(ws: seq<Window>): seq<Utterance> {
    if |ws| == 0 then [] else Transcript(ws[..|ws| - 1]) + Output(ws[|ws| - 1])
  }

  lemma {:induction false} TranscriptMember(ws: seq<Window>, k: nat) returns (i: nat, a: nat)
    requires k < |Transcript(ws)|
    ensures i < |ws| && a < |Output(ws[i])| && Transcript(ws)[k] == Output(ws[i])[a]
  {
    hide Output;
    var init := ws[..|ws| - 1];
    if k < |Transcript(init)| {
      i, a := TranscriptMember(init, k);
    } else {
      i, a := |ws| - 1, k - |Transcript(init)|;
    }
  }

  /** Orderly replies over consecutive windows give a transcript sorted by start. */
  lemma {:induction false} TranscriptIsSorted(ws: seq<Window>)
    requires Consecutive(ws) && forall k :: 0 <= k < |ws| ==> Orderly(ws[k])
    ensures SortedByStart(Transcript(ws))
  {
    if |ws| > 0 {
      var init, last := ws[..|ws| - 1], ws[|ws| - 1];
      TranscriptIsSorted(init);
      OrderlyOutputIsSorted(last);
      forall j, k | 0 <= j < |Transcript(init)| && 0 <= k < |Output(last)|
        ensures Transcript(init)[j].startMs <= Output(last)[k].startMs
      {
        var i, a := TranscriptMember(init, j);
        SegmentsDoNotInterleave(ws, i, |ws| - 1, a, k);
        AllInWindow(ws[i].reply, ws[i].seg);
        assert InWindow(Output(ws[i])[a], ws[i].seg);
      }
      hide Output, Orderly, Consecutive;
    }
  }

  /** Spans of one reply that do not overlap, all with positive ends. */
  predicate Disjoint(w: Window) {
    && (forall k :: 0 <= k < |w.reply| ==>
          && !Wraps(w.reply[k].startMs, w.seg) && !Wraps(w.reply[k].endMs, w.seg)
          && Positive(w.reply[k].endMs) && ReportedStart(w.reply[k]) <= w.reply[k].endMs.value)
    && (forall j, k :: 0 <= j < k < |w.reply| ==> w.reply[j].endMs.value <= ReportedStart(w.reply[k]))
  }

  lemma DisjointSpansStayDisjoint(w: Window, j: nat, k: nat)
    requires Disjoint(w) && w.seg.startMs <= w.seg.endMs && j < k < |w.reply|
    ensures Output(w)[j].endMs <= Output(w)[k].startMs
  {
  }

  // ----- the reply budget

  const TOKENS_BASE := 1024
  const TOKENS_PER_SECOND := 40

  function Int32Of(x: int): int {
    (x + 0x8000_0000) % 0x1_0000_0000 - 0x8000_0000
  }

  /** maxOutputTokens, with the wrap-around of its int64 and int32 arithmetic. */
  function MaxOutputTokens(seg: Segment): int {
    var t: int := Wrap(Wrap(seg.endMs - seg.startMs) + 999);
    var quotient: int := if t >= 0 then t / 1000 else -((-t) / 1000);  // Go truncates towards zero
    var secs := if quotient < 1 then 1 else quotient;
    Int32Of(Wrap(TOKENS_BASE + Wrap(TOKENS_PER_SECOND * secs)))
  }

  /** secs is the window length in seconds, rounded up. */
  predicate CeilSeconds(seg: Segment, secs: int) {
    1000 * (secs - 1) < seg.endMs - seg.startMs <= 1000 * secs
  }

  /** On windows the server lets through the budget is 40 tokens for every started second
      plus the base, exactly for windows of at most 53687065 seconds. */
  lemma BudgetIsExactIff(seg: Segment, secs: int)
    requires 0 <= seg.startMs < seg.endMs && CeilSeconds(seg, secs)
    ensures MaxOutputTokens(seg) == TOKENS_BASE + TOKENS_PER_SECOND * secs <==> secs <= 53687065
  {
  }

  /** One second more, and the budget is negative. */
  lemma LongWindowHasNoBudget(seg: Segment)
    requires seg.startMs == 0 && seg.endMs == 53687066_000
    ensures MaxOutputTokens(seg) == -2147483632
  {
  }
}
