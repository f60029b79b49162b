/** Probe: ffprobe metadata, then the silencedetect pass, inside one worker slot. */
module Probe {
  import opened Text
  import opened Wrappers
  import opened Errors
  import opened EngineWords
  import opened Engines
  import opened Children
  import opened CappedBuffers
  import Silence
  import Truncation
  import Classify

  // ffprobe's JSON, its numeric fields already parsed (0 when missing or malformed).
  datatype Stream = Stream(codecType: string, codecName: string, channels: int, sampleRate: int, durationMs: int)
  datatype FfprobeOutput = FfprobeOutput(streams: seq<Stream>, formatName: string, durationMs: int)

  datatype ProbeResult = ProbeResult(
    durationMs: int, channels: int, sampleRate: int, container: string, codec: string, silent: bool)

  predicate HasAudio(o: FfprobeOutput) {
    exists i :: 0 <= i < |o.streams| && o.streams[i].codecType == "audio"
  }

  /** i is the index of the first audio stream. */
  predicate FirstAudio(o: FfprobeOutput, i: nat) {
    && i < |o.streams| && o.streams[i].codecType == "audio"
    && forall j :: 0 <= j < i ==> o.streams[j].codecType != "audio"
  }

  predicate Describes(res: ProbeResult, o: FfprobeOutput, i: nat)
    requires i < |o.streams|
  {
    var s := o.streams[i];
    && res.durationMs == (if o.durationMs > 0 then o.durationMs else s.durationMs)
    && res.channels == s.channels && res.sampleRate == s.sampleRate
    && res.container == o.formatName && res.codec == s.codecName && !res.silent
  }

  /** The metadata of the first audio stream; the container's duration wins if positive. */
  method ToResult(o: FfprobeOutput) returns (r: Result<ProbeResult, Err>)
    ensures r.Success? <==> HasAudio(o)
    ensures r.Success? ==> exists i: nat :: FirstAudio(o, i) && Describes(r.value, o, i)
    ensures r.Success? ==>
      && r.value.container == o.formatName && !r.value.silent
      && (o.durationMs > 0 ==> r.value.durationMs == o.durationMs)
      && exists i: nat ::
           && FirstAudio(o, i) && r.value.codec == o.streams[i].codecName
           && r.value.channels == o.streams[i].channels && r.value.sampleRate == o.streams[i].sampleRate
           && (o.durationMs <= 0 ==> r.value.durationMs == o.streams[i].durationMs)
    ensures r.Failure? ==> r.error == Invalid("no audio stream")
  {
    var i := 0;
    while i < |o.streams| && o.streams[i].codecType != "audio"
      invariant 0 <= i <= |o.streams|
      invariant forall j :: 0 <= j < i ==> o.streams[j].codecType != "audio"
    {
      i := i + 1;
    }
    if i == |o.streams| {
      return Failure(Invalid("no audio stream"));
    }
    var stream := o.streams[i];
    assert FirstAudio(o, i);
    var res := ProbeResult(0, stream.channels, stream.sampleRate, o.formatName, stream.codecName, false);
    if o.durationMs > 0 {
      res := res.(durationMs := o.durationMs);
    } else {
      res := res.(durationMs := stream.durationMs);
    }
    r := Success(res);
  }

  /** What a run of ffprobe that ends well, within the cap and decodable, says. */
  function Metadata(run: ChildRun, decode: string -> Option<FfprobeOutput>): Option<FfprobeOutput> {
    if run.failure.Some? || Overflows(MAX_PROBE_OUTPUT_BYTES, Concat(run.stdout)) then None
    else decode(Kept(MAX_PROBE_OUTPUT_BYTES, Concat(run.stdout)))
  }

  method FfprobeMeta(run: ChildRun, decode: string -> Option<FfprobeOutput>) returns (r: Result<FfprobeOutput, Err>)
    ensures r.Success? <==> Metadata(run, decode).Some?
    ensures r.Success? ==> r.value == Metadata(run, decode).value
    // in terms of everything ffprobe wrote
    ensures r.Success? <==>
      run.failure.None? && |Concat(run.stdout)| <= 4194304 && decode(Concat(run.stdout)).Some?
    ensures r.Success? ==> Some(r.value) == decode(Concat(run.stdout))
    ensures r.Failure? ==> (Is(r.error, InvalidAudio) <==> ContentFailure(run))
    ensures r.Failure? ==> !Is(r.error, Silent) && !Is(r.error, NormalizeFailed)
    ensures run.failure.Some? ==> r.Failure?
    ensures r.Failure? ==> MapEngineErr(r.error) == RunCode(run) && Classify.MaskedErr(r.error)
  {
    hide Is, MapEngineErr, Classify.MaskedErr, Classify.Terminal;
    Classify.FixedMessage("ffprobe output exceeded 4 MiB");
    Classify.FixedMessage("ffprobe output not decodable");
    var stdout := new CappedBuffer(MAX_PROBE_OUTPUT_BYTES);
    stdout.Collect(run.stdout);
    assert stdout.written == Concat(run.stdout);
    var stderr := CaptureStderr(run);
    if run.failure.Some? {
      var err := FailedRun(run, stderr);
      return Failure(err);
    }
    if stdout.overflow {
      return Failure(Text("ffprobe output exceeded 4 MiB"));
    }
    var out := decode(stdout.buf);
    match out {
      case Some(o) => return Success(o);
      case None => return Failure(Text("ffprobe output not decodable"));
    }
  }

  /** The silencedetect verdict, if the pass ended well. */
  method DetectSilentThroughout(run: ChildRun, durationMs: int) returns (r: Option<bool>)
    ensures r.None? <==> run.failure.Some?
    ensures r.Some? ==> (r.value <==> Silence.SilentThroughout(Diagnostics(run), durationMs))
  {
    var stderr := CaptureStderr(run);
    if run.failure.Some? {
      return None;
    }
    var silent := Silence.Judge(stderr, durationMs);
    return Some(silent);
  }

  /** Is the request one that Probe rejects for its content? */
  ghost predicate Rejects(ffprobe: ChildRun, decode: string -> Option<FfprobeOutput>) {
    || ContentFailure(ffprobe)
    || (Metadata(ffprobe, decode).Some? && !HasAudio(Metadata(ffprobe, decode).value))
  }

  /** Was the silencedetect pass, as far as its log was kept, silent throughout? */
  predicate DetectedSilent(silencedetect: ChildRun, durationMs: int) {
    silencedetect.failure.None? && Silence.SilentThroughout(Diagnostics(silencedetect), durationMs)
  }

  /** Capping the log never makes an audible file look silent, if no number of the log,
      shortened, counts for more than it and the later ones together. */
  lemma DetectedSilenceIsGenuine(silencedetect: ChildRun, durationMs: int)
    requires DetectedSilent(silencedetect, durationMs)
    requires Truncation.AllCovered(Silence.Numbers(Concat(silencedetect.stderr)))
    ensures Silence.SilentThroughout(Concat(silencedetect.stderr), durationMs)
  {
    hide Truncation.AllCovered, Silence.SilentThroughout;
    var log := Concat(silencedetect.stderr);
    var kept := Diagnostics(silencedetect);
    assert log[..|kept|] == kept;
    Truncation.SilentWhenCappedIsSilent(log, |kept|, durationMs);
  }

  /** Otherwise it can: a pass that ends well, whose log is a second of silence at the
      engine's cap and none in full. */
  lemma DetectedSilenceCanBeFalse() returns (silencedetect: ChildRun)
    ensures DetectedSilent(silencedetect, 1000)
    ensures !Silence.SilentThroughout(Concat(silencedetect.stderr), 1000)
  {
    hide Silence.SilentThroughout;
    var log := Truncation.CappedVerdictCanBeWrong(MAX_PROBE_OUTPUT_BYTES);
    silencedetect := ChildRun([], [log], None, None);
    ConcatOne(log);
  }

  /** The verdict is terminal exactly for rejected inputs, and silence is a result, never
      an error; a failed silencedetect pass is not one either. */
  ghost predicate ProbeOutcome(ffprobe: ChildRun, decode: string -> Option<FfprobeOutput>,
                               silencedetect: ChildRun, r: Result<ProbeResult, Err>) {
    var meta := Metadata(ffprobe, decode);
    && (r.Failure? && MapEngineErr(r.error) == InvalidArgument <==> Rejects(ffprobe, decode))
    && (ffprobe.failure.Some? ==> r.Failure?)
    && (ffprobe.failure.Some? && ffprobe.cause.Some? ==>
          r.Failure? && MapEngineErr(r.error) == ContextCode(ffprobe.cause.value))
    && (r.Failure? ==>
          && MapEngineErr(r.error) == (if meta.Some? then InvalidArgument else RunCode(ffprobe))
          && Classify.MaskedErr(r.error))
    && (r.Success? <==> meta.Some? && HasAudio(meta.value))
    && (r.Success? ==> exists i: nat :: FirstAudio(meta.value, i) && Describes(r.value.(silent := false), meta.value, i))
    && (r.Success? ==>
          (r.value.silent <==> (r.value.durationMs <= 0 || DetectedSilent(silencedetect, r.value.durationMs))))
  }

  method Probe(engine: Engine, sourceURL: string, gaveUp: Option<Cause>,
               ffprobe: ChildRun, decode: string -> Option<FfprobeOutput>, silencedetect: ChildRun)
    returns (r: Result<ProbeResult, Err>)
    requires TrimSpace(sourceURL) != "" && gaveUp.None? ==> HasRoom(engine.Shared())
    modifies engine
    ensures var w := old(engine.Shared());
      engine.Shared() == if TrimSpace(sourceURL) != "" && gaveUp.None? then AroundSlot(w) else w
    ensures TrimSpace(sourceURL) == "" ==> r.Failure? && MapEngineErr(r.error) == InvalidArgument
    ensures TrimSpace(sourceURL) != "" && gaveUp.Some? ==> r == Failure(ContextErr(gaveUp.value))
    ensures TrimSpace(sourceURL) != "" && gaveUp.None? ==> ProbeOutcome(ffprobe, decode, silencedetect, r)
  {
    if TrimSpace(sourceURL) == "" {
      return Failure(Invalid("empty source url"));
    }
    var err := engine.Acquire(gaveUp);
    if err.Some? {
      return Failure(err.value);
    }
    r := ProbeHeld(ffprobe, decode, silencedetect);
    engine.ReleaseWorker();
  }

  /** Probe's body, under the deferred release. */
  method ProbeHeld(ffprobe: ChildRun, decode: string -> Option<FfprobeOutput>, silencedetect: ChildRun)
    returns (r: Result<ProbeResult, Err>)
    ensures ProbeOutcome(ffprobe, decode, silencedetect, r)
  {
    hide Silence.SilentThroughout, Diagnostics, Is, MapEngineErr, Classify.MaskedErr, Classify.Terminal;
    Classify.FixedMessage("no audio stream");
    var meta := FfprobeMeta(ffprobe, decode);
    if meta.Failure? {
      return Failure(meta.error);
    }
    var res := ToResult(meta.value);
    if res.Failure? {
      return Failure(res.error);
    }
    var value := res.value;
    if value.durationMs <= 0 {
      value := value.(silent := true);
      assert value.(silent := false) == res.value;
      return Success(value);
    }
    var silent := DetectSilentThroughout(silencedetect, value.durationMs);
    if silent.Some? {
      value := value.(silent := silent.value);
    }
    assert value.(silent := false) == res.value;
    return Success(value);
  }
}
