/** Child processes, as their observable outcome. */
module Children {
  import opened Wrappers
  import opened Errors
  import opened CappedBuffers
  import Classify
  import Redact

  const MAX_PROBE_OUTPUT_BYTES := 4 * 1024 * 1024

  // The chunks a run writes, cmd.Run's error text if it fails, and ctx.Err() seen then.
  datatype ChildRun = ChildRun(
    stdout: seq<string>, stderr: seq<string>, failure: Option<string>, cause: Option<Cause>)

  /** The part of the diagnostics the engine gets to see. */
  function Diagnostics(run: ChildRun): string {
    Kept(MAX_PROBE_OUTPUT_BYTES, Concat(run.stderr))
  }

  /** A failed run that is a verdict on the content: nobody cancelled it, and its captured
      diagnostics are terminal. */
  ghost predicate ContentFailure(run: ChildRun) {
    run.failure.Some? && run.cause.None? && Classify.Terminal(Diagnostics(run))
  }

  /** Runs a child whose stderr goes to a capped buffer, and returns what was captured. */
  method CaptureStderr(run: ChildRun) returns (stderr: string)
    ensures stderr == Diagnostics(run)
    ensures stderr <= Concat(run.stderr)
    ensures |stderr| == if |Concat(run.stderr)| <= 4194304 then |Concat(run.stderr)| else 4194304
  {
    var buffer := new CappedBuffer(MAX_PROBE_OUTPUT_BYTES);
    buffer.Collect(run.stderr);
    stderr := buffer.buf;
  }

  /** The code of a run that failed, or ended well and was of no use. */
  ghost function RunCode(run: ChildRun): (c: Code)
    ensures c == InvalidArgument <==> ContentFailure(run)
    ensures run.failure.Some? && run.cause.Some? ==> c == ContextCode(run.cause.value)
  {
    if run.failure.Some? && run.cause.Some? then ContextCode(run.cause.value)
    else if ContentFailure(run) then InvalidArgument
    else Internal
  }

  /** The error of a failed run whose context may have ended. */
  method FailedRun(run: ChildRun, stderr: string) returns (err: Err)
    requires run.failure.Some? && stderr == Diagnostics(run)
    ensures Is(err, InvalidAudio) <==> ContentFailure(run)
    ensures !Is(err, Silent) && !Is(err, NormalizeFailed)
    ensures MapEngineErr(err) == RunCode(run)
    ensures run.cause.Some? ==> MapEngineErr(err) == ContextCode(run.cause.value)
    ensures run.cause.None? ==> !Is(err, DeadlineExceeded) && !Is(err, Canceled)
    ensures Classify.MaskedErr(err)
  {
    hide Classify.Terminal, Classify.MaskedErr, Redact.FirstLine, Diagnostics, MapEngineErr, Is;
    match run.cause {
      case Some(cause) =>
        err := Wrap(ContextErr(cause), "run ended");
        EndedByContext(cause);
      case None =>
        err := Classify.ClassifyProbeErr(stderr, run.failure);
    }
  }

  lemma EndedByContext(cause: Cause)
    ensures var err := Wrap(ContextErr(cause), "run ended");
      && MapEngineErr(err) == ContextCode(cause) && Classify.MaskedErr(err)
      && !Is(err, InvalidAudio) && !Is(err, Silent) && !Is(err, NormalizeFailed)
  {
    hide Redact.Masked;
    Redact.PlainIsMasked("run ended");
    var inner := ContextErr(cause);
    assert inner.Sentinel?;
  }
}
