/** SegmentCut: one ffmpeg run inside one worker slot, its WAV captured whole or not at all. */
module SegmentCuts {
  import opened Text
  import opened Wrappers
  import opened Errors
  import opened EngineWords
  import opened Engines
  import opened Children
  import opened CappedBuffers
  import opened Decimal
  import Format
  import Classify

  const MAX_SEGMENT_BYTES := 64 * 1024 * 1024

  // What ffmpeg does, given its -ss and -t arguments.
  type Cutter = (string, string) -> ChildRun

  function ClampedStart(startMs: Int64): Int64 {
    if startMs < 0 then 0 else startMs
  }

  /** The run the request asks for. */
  function CutRun(ffmpeg: Cutter, startMs: Int64, endMs: Int64): ChildRun
    requires startMs < endMs
  {
    ffmpeg(Format.FormatMs(ClampedStart(startMs)), Format.FormatMs(endMs - ClampedStart(startMs)))
  }

  /** The arguments denote the window, what lies before the asset's beginning cut off. */
  predicate AsksFor(ss: string, t: string, startMs: int, endMs: int) {
    && Format.IsSeconds(ss) && Format.IsSeconds(t)
    && (startMs >= 0 ==> Format.ReadMs(ss) == startMs)
    && (startMs >= 0 ==> Format.ReadMs(ss) + Format.ReadMs(t) == endMs)
    && (startMs < 0 ==> Format.ReadMs(ss) == 0)
    && (startMs < 0 <= endMs ==> Format.ReadMs(t) == endMs)
  }

  /** The run a cut makes is one for the requested window. */
  lemma CutAsksForWindow(ffmpeg: Cutter, startMs: Int64, endMs: Int64) returns (ss: string, t: string)
    requires startMs < endMs <= Format.LONGEST_MS
    ensures AsksFor(ss, t, startMs, endMs) && CutRun(ffmpeg, startMs, endMs) == ffmpeg(ss, t)
  {
    hide Format.IsSeconds, Format.ReadMs;
    var start := ClampedStart(startMs);
    ss, t := Format.FormatMs(start), Format.FormatMs(endMs - start);
    Format.ReadsBackIff(start);
    var length: Int64 := if endMs < start then 0 else endMs - start;
    assert Format.FormatMs(length) == t;
    Format.ReadsBackIff(length);
    hide Format.FormatMs;
  }

  predicate WellFormedCut(url: string, startMs: Int64, endMs: Int64) {
    TrimSpace(url) != "" && startMs < endMs
  }

  /** Is the run one the cut rejects for its content: a content failure, or no audio? */
  ghost predicate Rejects(run: ChildRun) {
    ContentFailure(run) || (run.failure.None? && Concat(run.stdout) == "")
  }

  /** The code of a run that gives no segment. */
  ghost function FailureCode(run: ChildRun): (c: Code)
    ensures run.failure.Some? && run.cause.Some? ==> c == ContextCode(run.cause.value)
  {
    if Rejects(run) then InvalidArgument else RunCode(run)
  }

  method SegmentCut(engine: Engine, url: string, startMs: Int64, endMs: Int64,
                    gaveUp: Option<Cause>, ffmpeg: Cutter)
    returns (r: Result<string, Err>)
    requires WellFormedCut(url, startMs, endMs) && gaveUp.None? ==> HasRoom(engine.Shared())
    modifies engine
    ensures var w := old(engine.Shared());
      var entered := WellFormedCut(url, startMs, endMs) && gaveUp.None?;
      && engine.Shared() == (if entered then AroundSlot(w) else w)
      && engine.started == old(engine.started) +
           if entered && StartsScavenge(Receive(Entered(w))) then 1 else 0
    ensures TrimSpace(url) == "" || endMs <= startMs ==>
      r.Failure? && MapEngineErr(r.error) == InvalidArgument && engine.Shared() == old(engine.Shared())
    ensures WellFormedCut(url, startMs, endMs) && gaveUp.Some? ==> r == Failure(ContextErr(gaveUp.value))
    ensures WellFormedCut(url, startMs, endMs) && gaveUp.None? ==> CutOutcome(CutRun(ffmpeg, startMs, endMs), r)
    // ffmpeg is asked for the window: it starts where the request does, and is as long
    ensures WellFormedCut(url, startMs, endMs) && gaveUp.None? && endMs <= Format.LONGEST_MS ==>
      exists ss, t :: AsksFor(ss, t, startMs, endMs) && CutOutcome(ffmpeg(ss, t), r)
  {
    hide MapEngineErr, Is, CutOutcome, Format.FormatMs, Drains, AsksFor;
    if TrimSpace(url) == "" {
      return Failure(Invalid("empty normalized url"));
    }
    if endMs <= startMs {
      return Failure(Invalid("empty segment window"));
    }
    var start := startMs;
    if start < 0 {
      start := 0;
    }
    var err := engine.Acquire(gaveUp);
    if err.Some? {
      return Failure(err.value);
    }
    var ss := Format.FormatMs(start);
    var t := Format.FormatMs(endMs - start);
    r := Cut(ffmpeg(ss, t));
    if endMs <= Format.LONGEST_MS {
      ghost var ss', t' := CutAsksForWindow(ffmpeg, startMs, endMs);
    }
    engine.ReleaseWorker();
  }

  /** The verdict is terminal exactly for rejected runs; a success is ffmpeg's complete
      output, and is given whenever that output is nonempty and within the cap. */
  ghost predicate CutOutcome(run: ChildRun, r: Result<string, Err>) {
    && (r.Failure? && MapEngineErr(r.error) == InvalidArgument <==> Rejects(run))
    && (run.failure.None? && Concat(run.stdout) == "" ==>
          r.Failure? && MapEngineErr(r.error) == InvalidArgument)
    && (run.failure.Some? && run.cause.Some? ==>
          r.Failure? && MapEngineErr(r.error) == ContextCode(run.cause.value))
    && (r.Failure? ==> MapEngineErr(r.error) == FailureCode(run) && Classify.MaskedErr(r.error))
    && (r.Success? <==> run.failure.None? && 0 < |Concat(run.stdout)| <= MAX_SEGMENT_BYTES)
    && (r.Success? ==> r.value == Concat(run.stdout))
  }

  method Cut(run: ChildRun) returns (r: Result<string, Err>)
    ensures CutOutcome(run, r)
  {
    hide Is, MapEngineErr, Classify.MaskedErr, Classify.Terminal, Diagnostics;
    var stdout := new CappedBuffer(MAX_SEGMENT_BYTES);
    stdout.Collect(run.stdout);
    var stderr := CaptureStderr(run);
    if run.failure.Some? {
      var err := FailedRun(run, stderr);
      return Failure(err);
    }
    if stdout.overflow {
      Classify.FixedMessage("segment exceeded 64 MiB");
      return Failure(Text("segment exceeded 64 MiB"));
    }
    var b := stdout.buf;
    if |b| == 0 {
      Classify.FixedMessage("segment produced no audio");
      return Failure(Invalid("segment produced no audio"));
    }
    return Success(b);
  }
}
