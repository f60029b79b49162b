/** Go errors as wrap chains, errors.Is over them, and the gRPC codes they become. */
module Errors {

  datatype Mark =
    | InvalidAudio | Silent | NormalizeFailed         // audioengine's sentinels
    | BackendUnavailable | DegenerateOutput           // transcribe's sentinels
    | DeadlineExceeded | Canceled                     // the two context errors

  // Wrap is fmt.Errorf with a %w verb; an error printed with %v or %s is only text.
  datatype Err =
    | Sentinel(mark: Mark)
    | Api(code: int)                   // genai.APIError
    | Text(message: string)
    | Wrap(inner: Err, message: string)

  datatype Code =
    | OK | CodeCanceled | InvalidArgument | CodeDeadlineExceeded | ResourceExhausted | Internal | Unavailable

  // Why a context ended.
  datatype Cause = Deadline | Cancel

  function ContextErr(c: Cause): (e: Err)
    ensures MapEngineErr(e) == ContextCode(c)
    ensures Is(e, DeadlineExceeded) <==> c == Deadline
    ensures Is(e, Canceled) <==> c == Cancel
  {
    Sentinel(if c == Deadline then DeadlineExceeded else Canceled)
  }

  function ContextCode(c: Cause): Code {
    if c == Deadline then CodeDeadlineExceeded else CodeCanceled
  }

  /** errors.Is */
  predicate Is(e: Err, m: Mark) {
    match e
    case Sentinel(mark) => mark == m
    case Wrap(inner, _) => Is(inner, m)
    case Api(_) => false
    case Text(_) => false
  }

  /** geminiHTTPStatus: the status of the API error in the chain, or 0. */
  function ApiStatus(e: Err): int {
    match e
    case Api(code) => code
    case Wrap(inner, _) => ApiStatus(inner)
    case Sentinel(_) => 0
    case Text(_) => 0
  }

  function MapEngineErr(e: Err): Code {
    if Is(e, InvalidAudio) || Is(e, Silent) then InvalidArgument
    else if Is(e, NormalizeFailed) then Internal
    else if Is(e, DeadlineExceeded) then CodeDeadlineExceeded
    else if Is(e, Canceled) then CodeCanceled
    else Internal
  }

  function MapTranscribeErr(e: Err): Code {
    if Is(e, BackendUnavailable) || Is(e, DegenerateOutput) then Unavailable
    else if Is(e, DeadlineExceeded) then CodeDeadlineExceeded
    else if Is(e, Canceled) then CodeCanceled
    else
      var code := ApiStatus(e);
      if code == 429 then ResourceExhausted
      else if code == 408 || code == 504 then CodeDeadlineExceeded
      else if 500 <= code <= 599 then Unavailable
      else Internal
  }

  /** fmt.Errorf("%w: ...", ErrInvalidAudio): a terminal verdict. */
  function Invalid(message: string): (e: Err)
    ensures Is(e, InvalidAudio) && MapEngineErr(e) == InvalidArgument
    ensures forall m :: m != InvalidAudio ==> !Is(e, m)
  {
    Wrap(Sentinel(InvalidAudio), message)
  }

  /** What is at the end of a chain, under any number of wrappings. */
  function Root(e: Err): Err {
    match e
    case Wrap(inner, _) => Root(inner)
    case _ => e
  }

  /** Which faults get which code in the engine's RPCs, by what is at the end of the chain. */
  lemma EngineCodes(e: Err)
    ensures var c, root := MapEngineErr(e), Root(e);
      && (c == InvalidArgument <==> root == Sentinel(InvalidAudio) || root == Sentinel(Silent))
      && (c == CodeDeadlineExceeded <==> root == Sentinel(DeadlineExceeded))
      && (c == CodeCanceled <==> root == Sentinel(Canceled))
      && (c == Internal <==>
            || root.Api? || root.Text? || root == Sentinel(NormalizeFailed)
            || root == Sentinel(BackendUnavailable) || root == Sentinel(DegenerateOutput))
  {
    CodesSeeThroughWrapping(e);
  }

  /** And in the transcription RPC: 408 and 504 are deadlines, 429 is a full quota, every
      other server error is an outage, and all else is ours. */
  lemma TranscribeCodes(e: Err)
    ensures var c, root := MapTranscribeErr(e), Root(e);
      && (c == ResourceExhausted <==> root == Api(429))
      && (c == CodeDeadlineExceeded <==> root == Sentinel(DeadlineExceeded) || root == Api(408) || root == Api(504))
      && (c == CodeCanceled <==> root == Sentinel(Canceled))
      && (c == Unavailable <==>
            || root == Sentinel(BackendUnavailable) || root == Sentinel(DegenerateOutput)
            || (root.Api? && 500 <= root.code < 600 && root.code != 504))
      && (c == Internal <==>
            || root.Text? || (root.Api? && root.code !in {408, 429} && !(500 <= root.code < 600))
            || root == Sentinel(InvalidAudio) || root == Sentinel(Silent) || root == Sentinel(NormalizeFailed))
  {
    CodesSeeThroughWrapping(e);
  }

  /** Both classifications look through %w wrapping, however deep, and a transcription
      fault, unlike an engine fault, is never blamed on the caller. */
  lemma {:induction false} CodesSeeThroughWrapping(e: Err)
    ensures MapEngineErr(e) == MapEngineErr(Root(e))
    ensures MapTranscribeErr(e) == MapTranscribeErr(Root(e))
    ensures MapTranscribeErr(e) != InvalidArgument && MapTranscribeErr(e) != OK && MapEngineErr(e) != OK
  {
    if e.Wrap? {
      CodesSeeThroughWrapping(e.inner);
    }
  }
}
