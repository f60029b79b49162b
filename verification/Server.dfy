/** The TranscribeSegment RPC: the Hold around the cut and the Gemini call, the reply's
    decoding and rebasing, and the code each fault becomes. */
module Server {
  import opened Text
  import opened Wrappers
  import opened Errors
  import opened EngineWords
  import opened Engines
  import opened Decimal
  import opened Children
  import opened CappedBuffers
  import Classify
  import SegmentCuts
  import Rebase
  import Format
  import Reply

  datatype ModelReply = ModelReply(detectedLanguage: string, utterances: seq<Rebase.ModelUtterance>)

  datatype GeminiReply = CallFailed(err: Err) | Replied(hitTokenCap: bool, text: string)

  // What Gemini is sent, the prompt's wording aside.
  datatype Call = Call(model: string, audio: string, maxOutputTokens: int, offsetMaximum: int)

  // The network and the JSON decoder, as functions of what they are given.
  type Gemini = Call -> GeminiReply
  type Decoder = string -> Option<ModelReply>

  datatype Request = Request(url: string, startMs: Int64, endMs: Int64, languageHint: string, model: string)

  datatype Response =
    | Answer(detectedLanguage: string, utterances: seq<Rebase.Utterance>)
    | Status(code: Code)

  // ----- the transcriber

  /** The decoded reply; a reply that is not usable JSON decodes to nothing. */
  function Parsed(text: string, decode: Decoder): Option<ModelReply> {
    var s := Reply.Stripped(TrimSpace(text));
    if s == "" then None else decode(s)
  }

  method ParseModelJSON(text: string, decode: Decoder) returns (r: Option<ModelReply>)
    ensures r == Parsed(text, decode)
  {
    var s := Reply.StripCodeFence(TrimSpace(text));
    if s == "" {
      return None;
    }
    r := decode(s);
  }

  /** A fence around the reply is seen through, and so is white space. */
  lemma ParsedSeesThroughFence(info: string, payload: string, decode: Decoder)
    requires '\n' !in info
    ensures Parsed(Reply.Fenced(info, payload), decode) ==
      if TrimSpace(payload) == "" then None else decode(TrimSpace(payload))
  {
    Reply.FencedIsTrimmed(info, payload);
    Reply.StripUndoesFence(info, payload);
    hide TrimSpace, Reply.Stripped;
  }

  /** A reply that does not start with a fence is decoded as it is, trimmed. */
  lemma ParsedPlain(text: string, decode: Decoder)
    requires TrimSpace(text) != "" && TrimSpace(text)[0] != '`'
    ensures Parsed(text, decode) == decode(TrimSpace(text))
  {
  }

  // ----- the call

  function CallFor(audio: string, seg: Rebase.Segment, model: string): Call {
    Call(model, audio, Rebase.MaxOutputTokens(seg), Rebase.OffsetMaximum(seg))
  }

  /** Is the reply one a transcript can be made from? */
  predicate Usable(reply: GeminiReply, decode: Decoder) {
    reply.Replied? && !reply.hitTokenCap && Parsed(reply.text, decode).Some?
  }

  datatype Transcript = Transcript(detectedLanguage: string, utterances: seq<Rebase.Utterance>)

  lemma UsableIsParsed(reply: GeminiReply, decode: Decoder)
    requires Usable(reply, decode)
    ensures reply.Replied? && !reply.hitTokenCap && Parsed(reply.text, decode).Some?
  {
  }

  /** The reply in the model's words, and its utterances on the asset's timeline. */
  predicate Transcribes(t: Transcript, reply: ModelReply, seg: Rebase.Segment) {
    && t.detectedLanguage == reply.detectedLanguage
    && t.utterances == Rebase.RebasedAll(reply.utterances, seg)
    && (seg.startMs <= seg.endMs ==>
          forall i :: 0 <= i < |t.utterances| ==> Rebase.InWindow(t.utterances[i], seg))
  }

  /** The code of a transcription that fails: an empty model or segment is a plain error, a
      failed call keeps its own, and an unusable reply asks for a retry. */
  function TranscribeCode(audio: string, model: string, reply: GeminiReply): Code {
    if TrimSpace(model) == "" || audio == "" then Internal
    else if reply.CallFailed? then MapTranscribeErr(reply.err)
    else Unavailable
  }

  method Transcribe(audio: string, seg: Rebase.Segment, model: string, gemini: Gemini, decode: Decoder)
    returns (r: Result<Transcript, Err>)
    ensures var reply := gemini(CallFor(audio, seg, model));
      && (r.Success? <==> TrimSpace(model) != "" && audio != "" && Usable(reply, decode))
      && (r.Success? ==> reply.Replied? && !reply.hitTokenCap)
      && (r.Success? ==> Transcribes(r.value, Parsed(reply.text, decode).value, seg))
      && (r.Failure? ==> MapTranscribeErr(r.error) == TranscribeCode(audio, model, reply))
      && (TrimSpace(model) == "" || audio == "" ==> r.Failure? && MapTranscribeErr(r.error) == Internal)
      && (TrimSpace(model) != "" && audio != "" && reply.Replied? && r.Failure? ==>
            MapTranscribeErr(r.error) == Unavailable)
      && (TrimSpace(model) != "" && audio != "" && reply.CallFailed? ==> r == Failure(reply.err))
  {
    hide Rebase.RebasedAll, Rebase.InWindow, Parsed, TrimSpace;
    if TrimSpace(model) == "" {
      return Failure(Text("empty model id"));
    }
    if |audio| == 0 {
      return Failure(Text("empty audio segment"));
    }
    var reply := gemini(CallFor(audio, seg, model));
    match reply {
      case CallFailed(err) => return Failure(err);
      case Replied(hitTokenCap, text) =>
        if hitTokenCap {
          return Failure(Wrap(Sentinel(DegenerateOutput), "token cap"));
        }
        var parsed := ParseModelJSON(text, decode);
        match parsed {
          case Some(reply) =>
            var utterances := Rebase.RebaseUtterances(reply.utterances, seg);
            return Success(Transcript(reply.detectedLanguage, utterances));
          case None => return Failure(Wrap(Sentinel(DegenerateOutput), "unusable reply"));
        }
    }
  }

  // ----- the RPC

  predicate BadRequest(req: Request) {
    TrimSpace(req.url) == "" || req.startMs < 0 || req.endMs <= req.startMs
  }

  function ModelOf(req: Request, defaultModel: string): string {
    if TrimSpace(req.model) == "" then defaultModel else TrimSpace(req.model)
  }

  function SegmentOf(req: Request): Rebase.Segment {
    Rebase.Segment(req.startMs, req.endMs, TrimSpace(req.languageHint))
  }

  /** What an accepted request sends to Gemini: the requested model if there is one, the
      audio, offsets bounded by the window, and 40 tokens a second over the base. */
  lemma CallIsForRequest(req: Request, audio: string, defaultModel: string, secs: int)
    requires !BadRequest(req)
    requires 1000 * (secs - 1) < req.endMs - req.startMs <= 1000 * secs
    ensures var call := CallFor(audio, SegmentOf(req), ModelOf(req, defaultModel));
      && call.audio == audio
      && (TrimSpace(req.model) != "" ==> call.model == TrimSpace(req.model))
      && (TrimSpace(req.model) == "" ==> call.model == defaultModel)
      && call.offsetMaximum == req.endMs - req.startMs
      && (secs <= 53687065 ==> call.maxOutputTokens == 1024 + 40 * secs)
  {
    hide TrimSpace;
    Rebase.BudgetIsExactIff(SegmentOf(req), secs);
  }

  /** Where an utterance of the reply comes to lie, in terms of the request. */
  predicate Moved(req: Request, u: Rebase.ModelUtterance, r: Rebase.Utterance) {
    var window := req.endMs - req.startMs;
    && (u.startMs.None? || u.startMs.value <= 0 ==> r.startMs == req.startMs)
    && (u.endMs.None? || u.endMs.value <= 0 ==> r.endMs == req.endMs)
    && (u.startMs.Some? && 0 <= u.startMs.value <= window ==>
          && r.startMs == req.startMs + u.startMs.value
          && (u.endMs.Some? && 0 < u.endMs.value <= window ==>
                if u.endMs.value < u.startMs.value then r.endMs == r.startMs
                else r.endMs == req.startMs + u.endMs.value))
  }

  /** The answer to a reply, in terms of the request: inside the requested window, moved by
      the window's start, and one silent utterance for an empty reply. */
  predicate OnTimeline(req: Request, us: seq<Rebase.ModelUtterance>, out: seq<Rebase.Utterance>) {
    && (|us| == 0 ==>
          out == [Rebase.Utterance("", req.startMs, req.endMs, -1.0, TrimSpace(req.languageHint), false)])
    && (|us| > 0 ==>
          |out| == |us| && forall i :: 0 <= i < |us| ==> Rebase.Keeps(out[i], us[i]) && Moved(req, us[i], out[i]))
    && (forall i :: 0 <= i < |out| ==> req.startMs <= out[i].startMs <= out[i].endMs <= req.endMs)
  }

  lemma TranscriptIsOnTimeline(req: Request, us: seq<Rebase.ModelUtterance>)
    requires !BadRequest(req)
    ensures OnTimeline(req, us, Rebase.RebasedAll(us, SegmentOf(req)))
  {
    hide TrimSpace, Rebase.Rebased, Rebase.Keeps, Moved;
    forall i | 0 <= i < |us|
      ensures var r := Rebase.Rebased(us[i], SegmentOf(req)); Rebase.Keeps(r, us[i]) && Moved(req, us[i], r)
    {
      RebasedIsMoved(req, us[i]);
    }
    Rebase.AllInWindow(us, SegmentOf(req));
    assert forall r :: Rebase.InWindow(r, SegmentOf(req)) ==> req.startMs <= r.startMs <= r.endMs <= req.endMs;
  }

  lemma RebasedIsMoved(req: Request, u: Rebase.ModelUtterance)
    requires !BadRequest(req)
    ensures var r := Rebase.Rebased(u, SegmentOf(req)); Rebase.Keeps(r, u) && Moved(req, u, r)
  {
    hide TrimSpace;
  }

  /** Does the request get as far as taking the Hold? */
  predicate Accepted(req: Request, available: bool, defaultModel: string) {
    !BadRequest(req) && available && ModelOf(req, defaultModel) != ""
  }

  /** The words after a Hold was taken and released around other work. */
  function AroundHold(w: Words): Words {
    if w.active == 0 && w.scavengeOnIdle then SetScavenging(w, true) else w
  }

  /** Under a Hold a slot's round trip changes nothing: its release is never a drain. */
  lemma SlotInsideHold(w: Words)
    requires w.active >= 0
    ensures AroundSlot(Add(w, 1)) == Add(w, 1)
    ensures !StartsScavenge(Receive(Entered(Add(w, 1))))
    ensures Ended(Add(w, 1)) == AroundHold(w)
    ensures StartsScavenge(Add(w, 1)) <==> w.active == 0 && w.scavengeOnIdle && !w.scavenging
  {
  }

  method TranscribeSegment(
      engine: Engine, req: Request, available: bool, defaultModel: string,
      gaveUp: Option<Cause>, ffmpeg: SegmentCuts.Cutter, gemini: Gemini, decode: Decoder)
    returns (r: Response)
    requires engine.active >= 0
    requires Accepted(req, available, defaultModel) && gaveUp.None? ==> HasRoom(engine.Shared())
    modifies engine
    // the Hold is given back on every path, and at most one scavenge is started, by it
    ensures var w := old(engine.Shared()); var accepted := Accepted(req, available, defaultModel);
      && engine.Shared() == (if accepted then AroundHold(w) else w)
      && engine.started == old(engine.started) +
           if accepted && w.active == 0 && w.scavengeOnIdle && !w.scavenging then 1 else 0
    ensures !Accepted(req, available, defaultModel) ==>
      r == Status(if !BadRequest(req) && !available then Unavailable else InvalidArgument)
    ensures TrimSpace(req.url) == "" || req.startMs < 0 || req.endMs <= req.startMs ==>
      r == Status(InvalidArgument) && engine.Shared() == old(engine.Shared())
    ensures TrimSpace(req.url) != "" && 0 <= req.startMs < req.endMs ==>
      && (!available ==> r == Status(Unavailable) && engine.Shared() == old(engine.Shared()))
      && (available && TrimSpace(req.model) == "" && defaultModel == "" ==>
            r == Status(InvalidArgument) && engine.Shared() == old(engine.Shared()))
    ensures Accepted(req, available, defaultModel) ==>
      RpcOutcome(req, ModelOf(req, defaultModel), gaveUp, SegmentCuts.CutRun(ffmpeg, req.startMs, req.endMs), gemini, decode, r)
    // the run is one for the requested window
    ensures Accepted(req, available, defaultModel) && req.endMs <= Format.LONGEST_MS ==>
      exists ss, t :: SegmentCuts.AsksFor(ss, t, req.startMs, req.endMs) &&
        RpcOutcome(req, ModelOf(req, defaultModel), gaveUp, ffmpeg(ss, t), gemini, decode, r)
  {
    if TrimSpace(req.url) == "" {
      return Status(InvalidArgument);
    }
    if req.startMs < 0 {
      return Status(InvalidArgument);
    }
    if req.endMs <= req.startMs {
      return Status(InvalidArgument);
    }
    if !available {
      return Status(Unavailable);
    }
    var model := TrimSpace(req.model);
    if model == "" {
      model := defaultModel;
    }
    if model == "" {
      return Status(InvalidArgument);
    }
    SlotInsideHold(engine.Shared());
    var release := engine.Hold();
    r := TranscribeHeld(engine, req, model, gaveUp, ffmpeg, gemini, decode);
    release.Call();
    hide SegmentCuts.AsksFor, SegmentCuts.CutRun, RpcOutcome, TrimSpace;
    if req.endMs <= Format.LONGEST_MS {
      ghost var ss, t := SegmentCuts.CutAsksForWindow(ffmpeg, req.startMs, req.endMs);
    }
  }

  /** What an accepted request gets: InvalidArgument exactly when the cut rejects the
      content; an answer exactly when the cut and the reply are both usable, and then the
      reply rebased into the requested window. */
  ghost predicate RpcOutcome(req: Request, model: string, gaveUp: Option<Cause>, run: ChildRun,
                             gemini: Gemini, decode: Decoder, r: Response) {
    var audio := Concat(run.stdout);
    var reply := gemini(CallFor(audio, SegmentOf(req), model));
    var cut := gaveUp.None? && run.failure.None? && 0 < |audio| <= SegmentCuts.MAX_SEGMENT_BYTES;
    && (r == Status(InvalidArgument) <==> gaveUp.None? && SegmentCuts.Rejects(run))
    && (r.Answer? <==> cut && TrimSpace(model) != "" && Usable(reply, decode))
    && (r.Answer? ==>
          var said := Parsed(reply.text, decode).value;
          && r.detectedLanguage == said.detectedLanguage
          && reply.Replied? && !reply.hitTokenCap
          && OnTimeline(req, said.utterances, r.utterances)
          && Transcribes(Transcript(r.detectedLanguage, r.utterances), said, SegmentOf(req)))
    && (r.Status? ==> r.code != OK)
    && (gaveUp.Some? ==> r == Status(ContextCode(gaveUp.value)))
    && (gaveUp.None? && run.failure.Some? && run.cause.Some? ==> r == Status(ContextCode(run.cause.value)))
    && (r.Status? ==>
          r.code == if gaveUp.Some? then ContextCode(gaveUp.value)
                    else if !cut then SegmentCuts.FailureCode(run)
                    else TranscribeCode(audio, model, reply))
  }

  lemma TranscriptOf(req: Request, t: Transcript, said: ModelReply)
    requires !BadRequest(req) && Transcribes(t, said, SegmentOf(req))
    ensures t.detectedLanguage == said.detectedLanguage && OnTimeline(req, said.utterances, t.utterances)
  {
    hide OnTimeline, BadRequest;
    TranscriptIsOnTimeline(req, said.utterances);
  }

  /** The body under the deferred release of the Hold. */
  method TranscribeHeld(engine: Engine, req: Request, model: string, gaveUp: Option<Cause>,
                        ffmpeg: SegmentCuts.Cutter, gemini: Gemini, decode: Decoder)
    returns (r: Response)
    requires !BadRequest(req) && engine.active >= 1
    requires gaveUp.None? ==> HasRoom(engine.Shared())
    modifies engine
    ensures engine.Shared() == old(engine.Shared()) && engine.started == old(engine.started)
    ensures RpcOutcome(req, model, gaveUp, SegmentCuts.CutRun(ffmpeg, req.startMs, req.endMs), gemini, decode, r)
  {
    hide Parsed, Transcribes, OnTimeline, TranscribeCode, CallFor, SegmentCuts.CutRun, SegmentCuts.Rejects, SegmentCuts.FailureCode;
    hide Usable, Is, Classify.MaskedErr, MapTranscribeErr, MapEngineErr, Concat, Root, Ended, Drains;
    SlotInsideHold(Add(engine.Shared(), -1));
    var seg := SegmentCuts.SegmentCut(engine, req.url, req.startMs, req.endMs, gaveUp, ffmpeg);
    if seg.Failure? {
      CodesSeeThroughWrapping(seg.error);
      return Status(MapEngineErr(seg.error));
    }
    var res := Transcribe(seg.value, SegmentOf(req), model, gemini, decode);
    if res.Failure? {
      CodesSeeThroughWrapping(res.error);
      return Status(MapTranscribeErr(res.error));
    }
    var utterances := CopyAll(res.value.utterances);
    ghost var reply := gemini(CallFor(seg.value, SegmentOf(req), model));
    UsableIsParsed(reply, decode);
    TranscriptOf(req, res.value, Parsed(reply.text, decode).value);
    r := Answer(res.value.detectedLanguage, utterances);
    assert Transcript(r.detectedLanguage, r.utterances) == res.value;
  }

  /** The loop that copies utterances into the response. */
  method CopyAll(us: seq<Rebase.Utterance>) returns (out: seq<Rebase.Utterance>)
    ensures out == us
  {
    out := [];
    for i := 0 to |us|
      invariant out == us[..i]
    {
      var u := us[i];
      out := out + [Rebase.Utterance(u.text, u.startMs, u.endMs, u.confidence, u.language, u.isSpeech)];
    }
  }
}
