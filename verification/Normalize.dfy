/** Normalize: ffprobe, ffmpeg into a temp file, and the presigned PUT, with the two
    deferred cleanups as the two callers they run in. */
module Normalize {
  import opened Text
  import opened Wrappers
  import opened Errors
  import opened EngineWords
  import opened Engines
  import opened Children
  import opened CappedBuffers
  import Probe
  import Redact

  // An open temp file: its size and the offset shared with the child that writes it.
  datatype TempFile = TempFile(size: nat, offset: nat)

  // A PUT: the announced Content-Length and the bytes read from the file's offset on.
  datatype Put = Put(contentLength: nat, body: nat)

  datatype PutReply = Transport(message: string) | Status(code: int)

  // The environment's answers, in the order they are asked for; None means no error.
  datatype Environment = Environment(
    gaveUp: Option<Cause>, metadata: ChildRun, decode: string -> Option<Probe.FfprobeOutput>,
    createTemp: Option<string>, encode: ChildRun, encoded: nat, stat: Option<string>,
    seek: Option<string>, build: Option<string>, reply: PutReply)

  datatype NormalizeResult = NormalizeResult(durationMs: int, sampleRate: int, channels: int, bytesWritten: nat)

  /** The temp directory and the network, as far as Normalize touches them. */
  class Host {
    var files: map<nat, TempFile>
    var nextName: nat                // no file has this name or a later one
    var puts: seq<Put>

    ghost predicate Valid()
      reads this
    {
      forall n :: n in files ==> n < nextName
    }

    constructor ()
      ensures Valid() && files == map[] && puts == []
    {
      files, nextName, puts := map[], 0, [];
    }

    method CreateTemp() returns (name: nat)
      requires Valid()
      modifies this
      ensures Valid() && name !in old(files) && files == old(files)[name := TempFile(0, 0)]
      ensures puts == old(puts)
    {
      name := nextName;
      files := files[name := TempFile(0, 0)];
      nextName := nextName + 1;
    }

    /** Close and remove. */
    method Remove(name: nat)
      requires Valid()
      modifies this
      ensures Valid() && files == old(files) - {name} && puts == old(puts)
    {
      files := files - {name};
    }
  }

  /** Does the request reach the PUT? */
  predicate Uploads(env: Environment) {
    && env.createTemp.None? && env.encode.failure.None? && env.stat.None?
    && env.encoded > 0 && env.seek.None? && env.build.None?
  }

  predicate Accepted(reply: PutReply) {
    reply.Status? && 200 <= reply.code < 300
  }

  predicate WellFormed(source: string, dest: string) {
    TrimSpace(source) != "" && TrimSpace(dest) != ""
  }

  /** The best-effort duration: 0 when the metadata cannot be had. */
  ghost predicate Reports(env: Environment, durationMs: int) {
    var meta := Probe.Metadata(env.metadata, env.decode);
    if meta.None? || !Probe.HasAudio(meta.value) then durationMs == 0
    else ReportsAudio(meta.value, durationMs)
  }

  ghost predicate ReportsAudio(o: Probe.FfprobeOutput, durationMs: int) {
    exists i: nat, res :: Probe.FirstAudio(o, i) && Probe.Describes(res, o, i) && res.durationMs == durationMs
  }

  /** ffprobe has said this about an audio file, and no more than the engine reads. */
  predicate SaysAudio(env: Environment, o: Probe.FfprobeOutput) {
    && env.metadata.failure.None? && |Concat(env.metadata.stdout)| <= 4194304
    && env.decode(Concat(env.metadata.stdout)) == Some(o) && Probe.HasAudio(o)
  }

  lemma ReportedDuration(env: Environment, durationMs: int)
    requires Reports(env, durationMs)
    ensures forall o :: SaysAudio(env, o) && o.durationMs > 0 ==> durationMs == o.durationMs
    ensures env.metadata.failure.Some? || |Concat(env.metadata.stdout)| > 4194304 ==> durationMs == 0
  {
  }

  /** What a request that got its slot returns: an upload's size exactly when the PUT was
      made and accepted, and otherwise an ErrNormalize, however the run failed. What child
      processes and the HTTP client say reaches the caller masked, whenever it does. */
  ghost predicate Outcome(env: Environment, rate: int, r: Result<NormalizeResult, Err>) {
    && (r.Success? <==> Uploads(env) && Accepted(env.reply))
    && (r.Success? ==>
          && r.value.bytesWritten == env.encoded && r.value.sampleRate == rate
          && r.value.channels == 1 && Reports(env, r.value.durationMs))
    && (r.Failure? ==> r.error.Wrap? && r.error.inner == Sentinel(NormalizeFailed) && MapEngineErr(r.error) == Internal)
    && (r.Failure? && FailsMasked(env) ==> Redact.Masked(r.error.message))
  }

  /** The request fails with what a child process or the HTTP client says, or for lack of
      output; the other failures are the temp file's own and a refused PUT. */
  predicate FailsMasked(env: Environment) {
    && env.createTemp.None?
    && (env.encode.failure.Some? ||
        (env.stat.None? &&
         (env.encoded == 0 || (env.seek.None? && (env.build.Some? || env.reply.Transport?)))))
  }

  function Fail(detail: string): (r: Result<NormalizeResult, Err>)
    ensures r.Failure? && r.error == Wrap(Sentinel(NormalizeFailed), detail) && MapEngineErr(r.error) == Internal
  {
    var inner := Sentinel(NormalizeFailed);
    assert Is(inner, NormalizeFailed) && !Is(inner, InvalidAudio) && !Is(inner, Silent);
    Failure(Wrap(inner, detail))
  }

  method Normalize(engine: Engine, host: Host, source: string, dest: string,
                   targetRate: int, defaultRate: int, env: Environment)
    returns (r: Result<NormalizeResult, Err>)
    requires host.Valid()
    requires WellFormed(source, dest) && env.gaveUp.None? ==> HasRoom(engine.Shared())
    modifies engine, host
    ensures host.Valid()
    // every path gives back the temp file, the slot and the busy count
    ensures host.files == old(host.files)
    ensures var w := old(engine.Shared());
      engine.Shared() == if WellFormed(source, dest) && env.gaveUp.None? then AroundSlot(w) else w
    // at most one PUT, and only of a complete nonempty file, announced with its true length
    ensures var uploads := WellFormed(source, dest) && env.gaveUp.None? && Uploads(env);
      host.puts == old(host.puts) + if uploads then [Put(env.encoded, env.encoded)] else []
    ensures WellFormed(source, dest) && env.gaveUp.None? ==>
      Outcome(env, if targetRate <= 0 then defaultRate else targetRate, r)
    // success takes every step, and an answer in the 200s
    ensures WellFormed(source, dest) && env.gaveUp.None? ==>
      (r.Failure? <==>
        || env.createTemp.Some? || env.encode.failure.Some? || env.stat.Some? || env.encoded == 0
        || env.seek.Some? || env.build.Some? || env.reply.Transport? || env.reply.code / 100 != 2)
    // the duration is the container's, when ffprobe gives one for an audio file
    ensures WellFormed(source, dest) && env.gaveUp.None? && r.Success? ==>
      && (env.metadata.failure.Some? || |Concat(env.metadata.stdout)| > 4194304 ==> r.value.durationMs == 0)
      && forall o :: SaysAudio(env, o) && o.durationMs > 0 ==> r.value.durationMs == o.durationMs
    ensures WellFormed(source, dest) && env.gaveUp.Some? ==> r == Failure(ContextErr(env.gaveUp.value))
    ensures WellFormed(source, dest) && r.Failure? ==> MapEngineErr(r.error) != InvalidArgument
    ensures TrimSpace(source) == "" ==> r.Failure? && MapEngineErr(r.error) == InvalidArgument
    ensures TrimSpace(source) != "" && TrimSpace(dest) == "" ==> r.Failure? && MapEngineErr(r.error) == Internal
  {
    if TrimSpace(source) == "" {
      return Failure(Invalid("empty source url"));
    }
    if TrimSpace(dest) == "" {
      return Fail("empty dest put url");
    }
    var rate := targetRate;
    if rate <= 0 {
      rate := defaultRate;
    }
    var err := engine.Acquire(env.gaveUp);
    if err.Some? {
      return Failure(err.value);
    }
    r := NormalizeHeld(host, rate, env);
    engine.ReleaseWorker();
    if r.Success? {
      ReportedDuration(env, r.value.durationMs);
    }
    hide Reports, SaysAudio;
  }

  /** The body under the outer defer: metadata, then the temp file and its removal. */
  method NormalizeHeld(host: Host, rate: int, env: Environment) returns (r: Result<NormalizeResult, Err>)
    requires host.Valid()
    modifies host
    ensures host.Valid() && host.files == old(host.files)
    ensures host.puts == old(host.puts) + if Uploads(env) then [Put(env.encoded, env.encoded)] else []
    ensures Outcome(env, rate, r)
  {
    hide Probe.Metadata, Probe.HasAudio, Probe.Describes, Probe.FirstAudio;
    var durationMs := Duration(env);
    if env.createTemp.Some? {
      return Fail(env.createTemp.value);
    }
    var name := host.CreateTemp();
    r := Transcode(host, name, rate, durationMs, env);
    host.Remove(name);
    assert host.files == old(host.files);
  }

  method Duration(env: Environment) returns (durationMs: int)
    ensures Reports(env, durationMs)
  {
    durationMs := 0;
    var meta := Probe.FfprobeMeta(env.metadata, env.decode);
    if meta.Success? {
      var res := Probe.ToResult(meta.value);
      if res.Success? {
        durationMs := res.value.durationMs;
      }
    }
  }

  /** The body under the inner defer: encode into the file, then upload it. */
  method Transcode(host: Host, name: nat, rate: int, durationMs: int, env: Environment)
    returns (r: Result<NormalizeResult, Err>)
    requires host.Valid() && name in host.files && host.files[name] == TempFile(0, 0)
    requires env.createTemp.None? && Reports(env, durationMs)
    modifies host
    ensures host.Valid() && host.files.Keys == old(host.files).Keys
    ensures host.files - {name} == old(host.files) - {name}
    ensures host.puts == old(host.puts) + if Uploads(env) then [Put(env.encoded, env.encoded)] else []
    ensures Outcome(env, rate, r)
  {
    hide Reports, Redact.Masked, Redact.FirstLine, Redact.RedactURLs, MapEngineErr, Diagnostics;
    Redact.PlainIsMasked("ffmpeg produced no output");
    Redact.PlainIsMasked("context ended");
    var stderr := CaptureStderr(env.encode);
    host.files := host.files[name := TempFile(env.encoded, env.encoded)];
    if env.encode.failure.Some? {
      // a context error is flattened into the text
      var detail := if env.encode.cause.Some? then "context ended"
                    else Redact.FirstLine(stderr, Some(Redact.RedactURLs(env.encode.failure.value)));
      Redact.FirstLineIsMasked(stderr, Some(Redact.RedactURLs(env.encode.failure.value)));
      return Fail(detail);
    }
    if env.stat.Some? {
      return Fail(env.stat.value);
    }
    var size := host.files[name].size;
    if size == 0 {
      return Fail("ffmpeg produced no output");
    }
    if env.seek.Some? {
      return Fail(env.seek.value);
    }
    host.files := host.files[name := host.files[name].(offset := 0)];
    if env.build.Some? {
      Redact.RedactedIsMasked(env.build.value);
      return Fail(Redact.RedactURLs(env.build.value));
    }
    var file := host.files[name];
    host.puts := host.puts + [Put(size, file.size - file.offset)];
    if env.reply.Transport? {
      Redact.RedactedIsMasked(env.reply.message);
      return Fail(Redact.RedactURLs(env.reply.message));
    }
    if env.reply.code < 200 || env.reply.code >= 300 {
      return Fail("PUT returned an error status");
    }
    return Success(NormalizeResult(durationMs, rate, 1, size));
  }
}
