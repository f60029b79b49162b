/** classifyProbeErr: is a failed ffprobe or ffmpeg run a verdict on the content? */
module Classify {
  import opened Text
  import opened Wrappers
  import opened Errors
  import Redact

  function TransientMarkers(): seq<string> {
    ["connection refused", "could not resolve", "failed to resolve",
     "connection reset", "connection timed out", "timed out", "no route to host",
     "network is unreachable", "server returned 4", "server returned 5",
     "http error", "tls", "i/o error", "protocol not found"]
  }

  function ContentMarkers(): seq<string> {
    ["invalid data found", "moov atom not found", "could not find codec parameters",
     "unknown format", "header missing",
     "failed to read frame size", "could not seek to",
     "failed to find two consecutive mpeg audio frames"]
  }

  /** Some marker occurs in the log, whatever its case. */
  ghost predicate Mentions(log: string, markers: seq<string>) {
    exists i :: 0 <= i < |markers| && Contains(ToLower(log), markers[i])
  }

  /** The log is a verdict on the content: it has a content marker and no sign of a
      transient fault. */
  ghost predicate Terminal(log: string) {
    Mentions(log, ContentMarkers()) && !Mentions(log, TransientMarkers())
  }

  /** Every text in the error's chain is masked; the sentinels are fixed texts. */
  ghost predicate MaskedErr(e: Err) {
    match e
    case Sentinel(_) => true
    case Api(_) => false
    case Text(message) => Redact.Masked(message)
    case Wrap(inner, message) => MaskedErr(inner) && Redact.Masked(message)
  }

  method ClassifyProbeErr(stderr: string, runErr: Option<string>) returns (err: Err)
    ensures Is(err, InvalidAudio) <==> Terminal(stderr)
    ensures forall m :: m != InvalidAudio ==> !Is(err, m)
    ensures MapEngineErr(err) == if Terminal(stderr) then InvalidArgument else Internal
    ensures var line := Redact.FirstLine(stderr, runErr);
      err == if Terminal(stderr) then Invalid(line)
             else if Mentions(stderr, TransientMarkers()) then Text("audioengine: ffprobe transient: " + line)
             else Text("audioengine: ffprobe failed: " + line)
    ensures MaskedErr(err)
  {
    hide TransientMarkers, ContentMarkers, Redact.FirstLine, Redact.Masked, MapEngineErr;
    DiagnosticIsMasked(stderr, runErr);
    var s := ToLower(stderr);
    var transient := TransientMarkers();
    for i := 0 to |transient|
      invariant forall j :: 0 <= j < i ==> !Contains(s, transient[j])
    {
      if Contains(s, transient[i]) {
        return Text("audioengine: ffprobe transient: " + Redact.FirstLine(stderr, runErr));
      }
    }
    var invalid := ContentMarkers();
    for i := 0 to |invalid|
      invariant forall j :: 0 <= j < i ==> !Contains(s, invalid[j])
    {
      if Contains(s, invalid[i]) {
        return Invalid(Redact.FirstLine(stderr, runErr));
      }
    }
    return Text("audioengine: ffprobe failed: " + Redact.FirstLine(stderr, runErr));
  }

  lemma DiagnosticIsMasked(stderr: string, runErr: Option<string>)
    ensures var line := Redact.FirstLine(stderr, runErr);
      && MaskedErr(Invalid(line))
      && PlainFailure("audioengine: ffprobe transient: " + line)
      && PlainFailure("audioengine: ffprobe failed: " + line)
  {
    hide Redact.Masked, Redact.FirstLine;
    var line := Redact.FirstLine(stderr, runErr);
    Redact.FirstLineIsMasked(stderr, runErr);
    Redact.PrefixedIsMasked("audioengine: ffprobe transient: ", line);
    Redact.PrefixedIsMasked("audioengine: ffprobe failed: ", line);
  }

  ghost predicate PlainFailure(message: string) {
    MaskedErr(Text(message)) && MapEngineErr(Text(message)) == Internal
  }

  /** A fixed message without an h, as a plain error and as a terminal one. */
  lemma FixedMessage(message: string)
    requires 'h' !in message
    ensures MaskedErr(Invalid(message)) && PlainFailure(message)
    ensures forall m :: !Is(Text(message), m)
  {
    hide Redact.Masked;
    Redact.PlainIsMasked(message);
  }

  // ----- the verdict is conservative

  lemma ToLowerAppend(a: string, b: string)
    ensures ToLower(a + b) == ToLower(a) + ToLower(b)
  {
  }

  lemma ToLowerTwice(s: string)
    ensures ToLower(ToLower(s)) == ToLower(s)
  {
  }

  /** More output on either side never loses a marker. */
  lemma MentionsExtends(before: string, log: string, after: string, markers: seq<string>)
    requires Mentions(log, markers)
    ensures Mentions(before + log + after, markers)
  {
    var i :| 0 <= i < |markers| && Contains(ToLower(log), markers[i]);
    ToLowerAppend(before, log);
    ToLowerAppend(before + log, after);
    ContainsExtends(ToLower(before), ToLower(log), ToLower(after), markers[i]);
  }

  /** Once a log shows a transient fault, no further output makes it terminal. */
  lemma TransientIsForGood(before: string, log: string, after: string)
    requires Mentions(log, TransientMarkers())
    ensures !Terminal(before + log + after)
  {
    hide TransientMarkers, ContentMarkers;
    MentionsExtends(before, log, after, TransientMarkers());
  }

  /** A longer log can change a terminal verdict only by showing a transient fault. */
  lemma TerminalUntilTransient(before: string, log: string, after: string)
    requires Terminal(log)
    ensures Terminal(before + log + after) <==> !Mentions(before + log + after, TransientMarkers())
  {
    hide TransientMarkers, ContentMarkers;
    MentionsExtends(before, log, after, ContentMarkers());
  }

  lemma CaseDoesNotMatter(log: string)
    ensures Terminal(ToLower(log)) <==> Terminal(log)
  {
    ToLowerTwice(log);
  }
}
