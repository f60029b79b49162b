# audio-service: a verified model

audio-service hands audio to ffprobe, ffmpeg and Gemini behind three RPCs. This project models
its engine and its decoding of untrusted text in Dafny, and proves what holds in every run and
for every input.

* **The pool** (`EngineWords`, `Pool`, `PoolSafety`, `PoolRuns`, `PoolScripts`, `PoolExamples`). Any number of
  Probe, Normalize and TranscribeSegment requests interleave with scavenger goroutines, one atomic
  action at a time: channel send, channel receive, atomic add, compare-and-swap, goroutine start,
  store, child start, child exit, temp file made, temp file removed. Contexts may fire at
  `acquire`; outcomes of children and HTTP calls are arbitrary. All requests are present from the
  first state; a late arrival is a request whose first step comes late. The theorems are about
  every state of every run; `PoolScripts` shows that each request of a run, seen alone, has carried
  out the sequential program of its operation.
* **The engine as an object** (`Engines`, `EngineInPool`). The same words as a class with methods
  and `modifies` clauses, and lemmas that its methods are runs of pool steps by one client.
* **The operations** (`Children`, `Probe`, `SegmentCuts`, `Normalize`, `Server`). Step-by-step
  methods over the engine, capped buffers, a temp directory and the PUTs made. Go's deferred calls
  are the code after the call of an inner method, so their last-in-first-out order is the nesting.
* **Text** (`Text`, `CappedBuffers`, `Redact`, `Classify`, `Silence`, `Truncation`, `Errors`). The
  capped buffer, the two regular expressions as scanners, the error classifier, and Go's error
  chains.
* **Time and numbers** (`Decimal`, `Format`, `Rebase`, `Reply`). `formatMs`, utterance rebasing
  with Go's 64-bit wrap-around, `maxOutputTokens`, code fences, and lenient offsets.

What other programs answer (ffprobe, ffmpeg, Gemini, the PUT, the JSON decoder, a context's end)
is a parameter, so each statement holds for all answers. In `select`, the parameter `gaveUp` says
which case was taken; taking the send case needs room in the channel.

## Claims that are false of the code

Each has a concrete counterexample and, beside it, exactly when it does hold.

* *Every drain to idle is followed by a call of FreeOSMemory.* A drain that meets a scavenger which
  has already reclaimed, but not yet cleared its flag, is dropped
  (`PoolExamples.DrainWithoutLaterReclaim`). In a run that settles, a drain is followed by the call
  exactly if somebody has still to make it at the drain, or a trigger pulled afterwards, the
  drain's own or a later one, finds no scavenger between its call and its store
  (`PoolRuns.DrainIsReclaimedIff`). At one trigger the condition is that no scavenger is there
  (`PoolRuns.TriggerReclaimsIff`). Every drain is followed by the end of some scavenge
  (`PoolRuns.EveryDrainOutlivesAScavenge`).
* *No scavenge starts while a Hold is out.* A Hold can begin between another request's decrement and
  its compare-and-swap (`PoolExamples.ScavengeStartsWhileHeld`). A scavenge can start under a Hold
  exactly if such a trigger is pending when the Hold begins
  (`PoolRuns.ScavengeCanStartUnderHoldIff`), and no more start than were pending
  (`PoolRuns.StartsUnderHold`). No drain happens while a Hold is out (`PoolRuns.HoldShields`).
* *Truncating the silencedetect log never makes a file look silent.* A number with two dots, or one
  beyond the float64 range, counts for nothing whole and for something when cut
  (`Probe.DetectedSilenceCanBeFalse`, at the engine's cap of 4 MiB). No cut raises the sum exactly
  if no number, shortened, counts for more than it and all later numbers together
  (`Truncation.SafeIffCovered`; for one cut, `Truncation.CutIsSafeIff`; for the verdict at one duration,
  `Truncation.VerdictCanChangeIff`). It is enough that every number is counted or has no nonzero
  digit before its second dot, and then it holds however the sum is rounded
  (`Truncation.HarmlessHoweverRounded`).
* *Rebasing equals clamped addition.* A wrapped sum lands on the window start
  (`Rebase.WrappedSumIsElsewhere`). The two agree exactly under the condition of
  `Rebase.ExactIffNoHarmfulWrap`; under the schema's bounds they always do.
* *formatMs is exact.* It is for offsets up to 9223372036854 ms and for no longer one
  (`Format.ReadsBackIff`), because the nanosecond product wraps: one millisecond more prints as a
  negative number of seconds (`Format.LongerPrintsWrong`).
* *The reply budget is 1024 + 40 tokens a second.* It is for windows of at most 53687065 seconds and
  for no longer one (`Rebase.BudgetIsExactIff`), because of the conversion to int32: one second
  more makes it negative (`Rebase.LongWindowHasNoBudget`).

The repository's README says silent and zero-length audio is InvalidArgument. In the code `ErrSilent` is
never returned: Probe answers OK with its silent flag set, and so does the model
(`Probe.ProbeOutcome`). It also says an ffmpeg deadline is DeadlineExceeded; Normalize prints
context errors into the text of `ErrNormalize`, so after admission its deadline is Internal.

## Model

| member | source | states |
|---|---|---|
| EngineWords.WorkersOrDefault | internal/audioengine/engine.go:113-116 | the pool has the configured number of slots when that is positive and otherwise 4, so never none |
| PoolSafety.StepKeeps | internal/audioengine/engine.go:140-196 | every atomic step of every request and scavenger keeps the accounts, the single flight of the scavenger, and the ledger |
| PoolRuns.PoolAccounting | internal/audioengine/engine.go:140-179 | in every reachable state the slots in use are the requests past the send and not past the receive, never more than workers; active counts exactly the outstanding increments, Holds included, and is never negative |
| PoolExamples.CountersLeaveTheirSteadyBounds | internal/audioengine/engine.go:140-170 | a run in which occupancy exceeds active, and later active exceeds workers |
| PoolRuns.ResourcesStayInsideSlots | internal/audioengine/normalize.go:46-71 | in every reachable state live temp files are at most the Normalize requests owning a slot, and running children at most the occupied slots |
| PoolRuns.ScavengeLedger | internal/audioengine/engine.go:175-196 | scavenging is set exactly while one scavenger is between its CAS and its store; drains are scavenges started, triggers dropped and triggers pending; scavenges never outnumber drains, nor drains busy periods |
| PoolRuns.TriggerStartsIffNoneInFlight | internal/audioengine/engine.go:186-189 | a pending trigger starts a scavenge iff none is in flight, and is dropped iff one is |
| PoolRuns.TriggerReclaimsIff | internal/audioengine/engine.go:186-196 | after a trigger's CAS somebody is still to call FreeOSMemory iff the CAS met no scavenger between that call and its store |
| PoolRuns.LaterReclaimIff | internal/audioengine/engine.go:181-196 | in a run that settles, FreeOSMemory is called from a step on iff somebody has won the CAS and not called it yet, or a CAS is won later |
| PoolRuns.DrainIsReclaimedIff | internal/audioengine/engine.go:150-154 | in a run that settles, a drain is followed by a call of FreeOSMemory iff somebody has still to make it at the drain, or some later trigger meets no scavenger between its call and its store |
| PoolRuns.QuiescentRunHasReclaimed | internal/audioengine/engine.go:175-196 | with scavenging on, a finished run in which some request was counted has called FreeOSMemory |
| PoolRuns.EveryDrainOutlivesAScavenge | internal/audioengine/engine.go:181-196 | in a run that settles, every drain is followed by a scavenger's store |
| PoolExamples.DrainWithoutLaterReclaim | internal/audioengine/engine.go:150-154 | a settled run with a drain after which FreeOSMemory is never called |
| PoolRuns.HoldShields | internal/audioengine/engine.go:160-171 | while a Hold is out the engine stays busy and no request's decrement is a drain, the holder's own cut included |
| PoolRuns.GeminiCallsAreHeld | internal/server/server.go:140-164 | in every reachable state a Gemini call in flight belongs to a successful cut whose slot is back and whose Hold is out |
| PoolScripts.RequestsFollowTheirScripts | internal/audioengine/normalize.go:46-134 | in a finished run, whatever the interleaving, what a request has done, event by event, is the sequential program of its operation for the outcomes it met |
| PoolScripts.GeminiIsCalledIffCut | internal/server/server.go:147-164 | in a finished run a request reaches the Gemini call iff its ffmpeg cut ended well |
| PoolScripts.UploadsIffEncoded | internal/audioengine/normalize.go:86-119 | in a finished run a request reaches the PUT iff its encoding ended well |
| PoolScripts.SilencePassIffMetadata | internal/audioengine/probe.go:39-58 | in a finished run a Probe goes on to the silence pass iff its metadata is good |
| PoolExamples.ScavengeStartsWhileHeld | internal/audioengine/engine.go:160-179 | a run in which a scavenge starts while a Hold is out |
| PoolRuns.StartsUnderHold | internal/audioengine/engine.go:160-189 | while a Hold is out no more scavenges start than triggers were pending when it began |
| PoolRuns.ScavengeCanStartUnderHoldIff | internal/audioengine/engine.go:160-189 | with a Hold out, some continuation that keeps it starts a scavenge iff a trigger is pending already |
| PoolRuns.StepBurns | internal/audioengine/engine.go:140-196 | every step, cancellations and scavenger steps included, lowers the measure of remaining work |
| PoolRuns.RunsAreShort | internal/audioengine/engine.go:140-196 | no run of n requests takes more than 22 n steps, however scheduled |
| PoolRuns.Progress | internal/audioengine/engine.go:140-158 | an unsettled state has an enabled step other than a cancellation |
| PoolRuns.StuckRunsAreSettled | internal/audioengine/engine.go:140-196 | a run that cannot go on has finished every request, with no slot, count, flag, temp file or child left over and the ledger closed |
| Engines.Engine.Acquire | internal/audioengine/engine.go:140-148 | a slot and a count on admission; the context's error and no change otherwise |
| Engines.Engine.ReleaseWorker | internal/audioengine/engine.go:155-158 | gives back the slot and the count, starting a scavenger exactly on a drain with none running |
| Engines.Engine.EndActive | internal/audioengine/engine.go:175-179 | lowers the count; a drain with scavenging on raises the flag |
| Engines.Engine.Scavenge | internal/audioengine/engine.go:186-196 | single flight: a goroutine starts only if the flag was down |
| Engines.Engine.Hold | internal/audioengine/engine.go:167-171 | one more count, and an unused release for this engine |
| Engines.Release.CallTimes | internal/audioengine/engine.go:167-171 | calling release any number of times ends exactly one count |
| Engines.SlotRoundTrip | internal/audioengine/engine.go:140-158 | a slot taken and given back restores both counters, and raises the flag iff the engine was idle before |
| EngineInPool.AcquireIsTwoSteps | internal/audioengine/engine.go:140-148 | the object's acquire is two pool steps of one client |
| EngineInPool.HoldIsPoolStep | internal/audioengine/engine.go:167-168 | the object's Hold is one pool step of one client |
| EngineInPool.ReleaseOfHoldIsPoolSteps | internal/audioengine/engine.go:167-196 | the first call of a Hold's release is one to three pool steps of one client, with the same words and scavengers |
| EngineInPool.ReleaseIsPoolSteps | internal/audioengine/engine.go:155-196 | the object's releaseWorker is two to four pool steps of one client, with the same words and scavengers |
| CappedBuffers.CappedBuffer.Write | internal/audioengine/engine.go:209-221 | contents stay the first limit bytes of everything written, overflow iff there was more, and the full length is reported |
| CappedBuffers.CappedBuffer.Collect | internal/audioengine/engine.go:198-224 | after any sequence of writes the buffer is determined by the concatenation alone |
| CappedBuffers.SplittingAChunk | internal/audioengine/engine.go:209-221 | cutting a write in two changes nothing |
| Redact.ScannerIsPattern | internal/audioengine/engine.go:293 | the scanner matches exactly where the pattern does, splits at the only possible mark and takes the longest query |
| Redact.OnlyQueriesChange | internal/audioengine/engine.go:295-299 | redaction replaces the matched queries and keeps all other text in order |
| Redact.OnlyMatchesChange | internal/audioengine/engine.go:293-299 | every piece so replaced is a URL with a query as the pattern describes it |
| Redact.RedactTwice | internal/audioengine/engine.go:297-299 | redaction is idempotent |
| Redact.RedactedIsMasked | internal/audioengine/engine.go:288-299 | in a redacted text every substring the pattern describes, anywhere, has exactly the mark as its query, the query taken as far as it goes |
| Redact.UrlIsRedacted | internal/audioengine/engine.go:293-299 | a URL with a query comes out with the mark for its query, up to the next white space, and the text after it is redacted by itself |
| Redact.RedactAcrossSpace | internal/audioengine/engine.go:293-299 | redaction distributes over white space, newlines in particular |
| Redact.CutAndRedactCommute | internal/audioengine/engine.go:282-285 | cutting the first line and redacting commute |
| Redact.FirstLineCommutes | internal/audioengine/engine.go:274-286 | firstLine could redact before cutting, and the run error Normalize has already redacted gives the same line |
| Text.TrimSpaceIs | internal/audioengine/engine.go:275 | trimming takes the white space off both ends and nothing else |
| Redact.PlainDiagnosticsPassThrough | internal/audioengine/engine.go:274-286 | the diagnostic is the first line the child wrote, or the run error if it wrote nothing, word for word when there is no query to hide |
| Redact.FirstLineIsMasked | internal/audioengine/engine.go:274-286 | the diagnostic line is masked whatever a child wrote |
| Classify.ClassifyProbeErr | internal/audioengine/engine.go:231-272 | terminal iff the log has a content marker and no transient marker, in any case, and Internal otherwise; no other sentinel; the message is the redacted first line behind the prefix of its branch, and is masked |
| Classify.TransientIsForGood | internal/audioengine/engine.go:226-243 | no output before or after a transient log makes it terminal |
| Classify.TerminalUntilTransient | internal/audioengine/engine.go:231-272 | more output changes a terminal verdict only by showing a transient fault |
| Classify.CaseDoesNotMatter | internal/audioengine/engine.go:232 | the verdict ignores ASCII case |
| Errors.EngineCodes | internal/server/server.go:201-214 | for each code, exactly which faults get it in the engine's RPCs |
| Errors.TranscribeCodes | internal/server/server.go:216-257 | for each code, exactly which faults and HTTP statuses get it in the transcription RPC |
| Errors.CodesSeeThroughWrapping | internal/server/server.go:201-257 | both code mappings depend only on the end of the wrap chain; a transcription fault is never InvalidArgument and no fault is OK |
| Silence.ScannerIsPattern | internal/audioengine/probe.go:103 | the scanner matches exactly where the pattern does and captures the longest number |
| Silence.NumbersAreAllMatches | internal/audioengine/probe.go:136 | the numbers found are the captured groups of the longest matches from the left, without overlap, and no match is left out |
| Silence.SecondsOfWhole | internal/audioengine/probe.go:137 | a run of digits counts for the number it denotes, unless it is beyond the float64 range |
| Silence.SecondsOfDecimal | internal/audioengine/probe.go:137 | digits around a dot count for their number divided by the power of ten, unless beyond the range |
| Silence.FormOf | internal/audioengine/probe.go:136-137 | a captured number without a second dot is digits, or digits around a dot |
| Silence.NoSeconds | internal/audioengine/probe.go:137 | a number with two dots, or a lone dot, counts for nothing |
| Silence.OneInterval | internal/audioengine/probe.go:135-143 | a log of one interval is silent iff the interval, in whole numbers, is at least 99 hundredths of the duration |
| Silence.Judge | internal/audioengine/probe.go:135-143 | the accumulating loop gives the verdict on the sum of all captured numbers |
| Truncation.PrefixNumbers | internal/audioengine/probe.go:135-140 | a truncated log gives the same numbers up to a point, the last perhaps shortened |
| Truncation.CutIsSafeIff | internal/audioengine/probe.go:135-140 | a cut does not raise the sum iff its last number counts for no more than that number uncut and all later ones together |
| Truncation.SafeIffCovered | internal/audioengine/probe.go:135-140 | no cut raises the sum iff no number, however shortened, counts for more than it and all later ones together |
| Truncation.VerdictCanChangeIff | internal/audioengine/probe.go:135-143 | at one duration, some cut is silent and the whole is not iff the whole is not and some number, shortened and added to the earlier ones, is enough |
| Truncation.HarmlessIsCovered | internal/audioengine/probe.go:135-140 | numbers that are counted, or have no nonzero digit before their second dot, make every cut safe |
| Truncation.LastIsCoveredIff | internal/audioengine/probe.go:135-140 | of the last number, which nothing makes up for, that condition is exact |
| Truncation.HarmlessHoweverRounded | internal/audioengine/probe.go:135-143 | for such numbers no cut raises the sum of the loop, whatever monotone rounding its operations apply |
| Truncation.SilentWhenCappedIsSilent | internal/audioengine/probe.go:135-143 | for the logs of SafeIffCovered, silent on the kept prefix implies silent on the whole, at every cap and duration |
| Truncation.CappedVerdictCanBeWrong | internal/audioengine/probe.go:135-143 | at every cap that leaves room for the label, a longer log that is silent when capped and not silent whole |
| Children.FailedRun | internal/audioengine/probe.go:79-84 | the error of a failed run is its context's code if it was cancelled, InvalidArgument iff it was not and its captured diagnostics are terminal, and otherwise Internal; its text is masked |
| Probe.ToResult | internal/audioengine/probe.go:167-192 | fails iff no stream is audio; otherwise describes the first audio stream, the container's positive duration winning |
| Probe.FfprobeMeta | internal/audioengine/probe.go:66-99 | metadata iff the run ended well, within the cap and decodable; otherwise the code of the failed run, and Internal for an oversized or undecodable output; the text is masked |
| Probe.Probe | internal/audioengine/probe.go:28-63 | restores the slot on every path; InvalidArgument iff a content failure or no audio stream, its context's code for a cancelled run and Internal for every other failure, all masked; silent results are successes, silent iff the duration is not positive or the pass found silence |
| Probe.DetectedSilenceIsGenuine | internal/audioengine/probe.go:110-144 | capping the log does not make an audible file silent, if no number, shortened, counts for more than it and the later ones |
| Probe.DetectedSilenceCanBeFalse | internal/audioengine/probe.go:110-144 | a pass whose log is silent at the 4 MiB cap and not in full |
| SegmentCuts.SegmentCut | internal/audioengine/segment.go:31-91 | restores the slot; asks ffmpeg for a cut that starts where the window does and is as long; a success is ffmpeg's complete output, given iff it is nonempty and within 64 MiB; InvalidArgument iff a content failure or a clean exit without output, its context's code for a cancelled run and Internal for every other failure, oversized output included; all masked |
| Format.RoundingDoesNotShow | internal/audioengine/segment.go:95-101 | any seconds value within half a millisecond prints the exact digits |
| Format.ReadsBackIff | internal/audioengine/segment.go:95-101 | the printed offset reads back as itself iff it is at most 9223372036854 ms |
| Format.LongerPrintsWrong | internal/audioengine/segment.go:95-101 | 9223372036855 ms prints as -9223372036.855 |
| Format.CutsTile | internal/audioengine/segment.go:53-54 | printed start plus printed length is the printed start of the next window |
| Normalize.Normalize | internal/audioengine/normalize.go:34-134 | restores slot, count and temp directory on every path; one PUT of the whole file with its true length iff every earlier step succeeded with output, else none; success iff it was accepted with a status in the 200s; the duration reported is the container's if ffprobe gives one for an audio file; never InvalidArgument; other failures Internal, and masked whenever it is a child process or the HTTP client that fails, or ffmpeg gives no output; the texts of a failed temp file, stat or rewind and of a rejected status are not claimed masked |
| Normalize.NormalizeHeld | internal/audioengine/normalize.go:54-71 | the temp directory is as before on every path of the body |
| Rebase.RebaseOne | internal/transcribe/rebase.go:25-65 | the reassigning code computes the wrapped, clamped span the lemmas below are about, keeps what is reported, and puts an unreported start or end on the window's |
| Rebase.RebaseUtterances | internal/transcribe/rebase.go:14-23 | one utterance per input, in order, with the input's text, language, confidence and speech flag or their defaults, each a span inside the window where unbounded arithmetic puts it unless a sum wraps; for an empty reply the one fallback over the whole window |
| Rebase.AllInWindow | internal/transcribe/rebase.go:12-84 | for any int64 offsets window start <= start <= end <= window end |
| Rebase.ExactIffNoHarmfulWrap | internal/transcribe/rebase.go:25-43 | agrees with unbounded arithmetic iff no sum wraps, up to an empty window or an end whose start is already at the window end; a wrapped start is the window start |
| Rebase.WrappedSumIsElsewhere | internal/transcribe/rebase.go:25-43 | an offset of 2^63-1 from 1 ms lands on the window start, not on its end |
| Rebase.SchemaMakesShiftsExact | internal/transcribe/transcribe.go:213-217 | under the schema's bounds nothing wraps, starts are exact shifts, and so are positive ends, raised to the start if before it |
| Rebase.SegmentsDoNotInterleave | internal/transcribe/rebase.go:14-43 | for consecutive windows no earlier segment's utterance ends after a later one's starts |
| Rebase.TranscriptIsSorted | internal/transcribe/rebase.go:14-43 | orderly replies concatenate into a transcript sorted by start |
| Rebase.DisjointSpansStayDisjoint | internal/transcribe/rebase.go:25-43 | non-overlapping relative spans with positive ends stay non-overlapping |
| Rebase.BudgetIsExactIff | internal/transcribe/transcribe.go:163-166 | the budget is base plus 40 tokens per started second iff the window is at most 53687065 seconds |
| Rebase.LongWindowHasNoBudget | internal/transcribe/transcribe.go:163-166 | a window of 53687066 seconds has a negative budget |
| Decimal.ParseInt64 | internal/transcribe/transcribe.go:295 | the 64-bit digit loop accepts numerals of any length and returns the value iff it fits |
| Reply.LenientMs | internal/transcribe/transcribe.go:290-300 | the integer an offset denotes if an int64 holds it, and missing otherwise |
| Reply.LenientInvertsPrinting | internal/transcribe/transcribe.go:288-300 | reads back every printed int64, and reads every other printed integer as missing |
| Reply.OverflowFallsBackToWindow | internal/transcribe/rebase.go:25-43 | an overflowing digit run gives exactly the window's bound, for start and for end |
| Reply.StripCodeFence | internal/transcribe/transcribe.go:318-328 | text that does not start with a fence is unchanged; otherwise the stripped text of the lemmas below |
| Reply.StripUndoesFence | internal/transcribe/transcribe.go:316-328 | stripping a fenced payload gives the payload trimmed, backticks at its end included |
| Reply.StripReturnsPayloadIff | internal/transcribe/transcribe.go:316-328 | a fenced payload comes back unchanged iff it was trimmed |
| Reply.StripUnclosed | internal/transcribe/transcribe.go:318-328 | a fence that is not closed is taken off too |
| Reply.StripOneLine | internal/transcribe/transcribe.go:318-328 | without a newline only the closing fence is taken off |
| Server.ParsedSeesThroughFence | internal/transcribe/transcribe.go:302-314 | a fenced reply is decoded as its payload, and an empty payload is unusable |
| Server.ParsedPlain | internal/transcribe/transcribe.go:302-314 | a reply that does not start with a backtick is decoded as it is, trimmed |
| Server.CallIsForRequest | internal/server/server.go:130-164 | Gemini is called with the requested model, or the default one, the cut's audio, offsets bounded by the window and a budget of 40 tokens a second over the base |
| Server.SlotInsideHold | internal/server/server.go:140-147 | under a Hold a slot's round trip changes nothing and starts no scavenge |
| Server.TranscribeSegment | internal/server/server.go:114-194 | the Hold is given back on every path and at most one scavenge starts, at its release; InvalidArgument iff a bad request or a rejected cut; ffmpeg is asked for the requested window; an answer iff cut and reply are usable, and then each utterance lies in the requested window, at the requested start plus its offset, or spans the window for an empty reply; every other outcome has the one code its fault calls for |
| Server.Transcribe | internal/transcribe/transcribe.go:103-153 | a transcript, rebased, iff model and audio are not empty and the reply is decodable and not token-capped; an unusable reply is Unavailable, a failed call keeps its error, an empty model or segment is Internal |

## Left out

- Server.TranscribeSegment: asks that the busy count is not negative, which PoolRuns.PoolAccounting proves of every reachable state.
- Silence.Judge: sums exact decimals, as the exact conditions for truncation do; float64 rounding is the subject of Truncation.HarmlessHoweverRounded alone, which rounds each operation by itself and so leaves out a fused multiply-add.
- Format.RoundingDoesNotShow: the float64 division is any value within half a millisecond of the quotient, not IEEE arithmetic.
- Probe.FfprobeMeta: the JSON decoder's own text is not carried into the message, which is fixed; so are the byte counts.
- Normalize.Normalize: os.Remove is taken to succeed, and the status line of a rejected PUT is not carried into the message.
- Rebase.SchemaMakesShiftsExact: the schema's maximum is an integer here; above 2^53 ms the float64 of the source may round it.
- Pool.Behave: the methods of Probe, Normalize and SegmentCuts are not derived from it; PoolScripts gives their order of events, and EngineInPool relates the engine's own methods.
- EngineInPool.AcquireIsTwoSteps: the class describes one uninterrupted request; interference is the subject of the Pool modules.
- Bytes are characters, and a capped buffer may be thought of as ASCII text; splitting a multi-byte character is not modelled.
- Parsing of ffprobe's duration and sample rate fields, and JSON decoding in general: parameters of the model.
- Reply.LenientMs: which non-number values json.Number refuses is not modelled; Go's decoder may accept a quoted number, which is then a Number here.
- Process execution, HTTP, clocks, timeouts and the Gemini SDK: outcomes chosen by the environment.
- Configuration, logging, runtime tuning, generated protobuf code, prompt text, MIME defaults and token usage: straight-line code.
- The effect of FreeOSMemory: only when and how often it is called matters here.
- Fairness among waiting requests: Go's select and channels promise no order that the service relies on.
