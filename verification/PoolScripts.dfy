/** One request at a time: whatever the interleaving, what a request of a finished run has
    done is what its operation's sequential program does, with outcomes from outside. */
module PoolScripts {
  import opened EngineWords
  import opened Pool
  import opened PoolSafety
  import opened PoolRuns

  // What a request does, scavenging aside; each event carries its outcome.
  datatype Event =
    | TakesHold | DropsHold
    | GivesUp | TakesSlot | FreesSlot
    | CountsIn | CountsOut                       // the slot's own busy count
    | NotStarted(job: Job) | Started(job: Job) | Ended(job: Job, good: bool)
    | TempRefused | TempMade | TempRemoved
    | Uploads | CallsGemini

  // ----- the programs

  datatype JobOutcome = Stillborn | Ran(good: bool)

  // first is the metadata read or the cut, second the silence pass or the encoding.
  datatype Outcomes = Outcomes(admitted: bool, first: JobOutcome, temp: bool, second: JobOutcome)

  function RunOf(job: Job, o: JobOutcome): seq<Event> {
    if o.Stillborn? then [NotStarted(job)] else [Started(job), Ended(job, o.good)]
  }

  /** acquire, the body, and the deferred releaseWorker. */
  function InSlot(body: seq<Event>): seq<Event> {
    [TakesSlot, CountsIn] + body + [FreesSlot, CountsOut]
  }

  function ProbeScript(o: Outcomes): seq<Event> {
    if !o.admitted then [GivesUp]
    else InSlot(RunOf(Metadata, o.first) + if o.first == Ran(true) then RunOf(Silence, o.second) else [])
  }

  function NormalizeScript(o: Outcomes): seq<Event> {
    if !o.admitted then [GivesUp]
    else InSlot(RunOf(Metadata, o.first) +
                if !o.temp then [TempRefused] else [TempMade] + Transfer(o.second) + [TempRemoved])
  }

  function Transfer(o: JobOutcome): seq<Event> {
    RunOf(Encode, o) + if o == Ran(true) then [Uploads] else []
  }

  function TranscribeScript(o: Outcomes): seq<Event> {
    [TakesHold] +
    (if !o.admitted then [GivesUp]
     else InSlot(RunOf(Cut, o.first)) + if o.first == Ran(true) then [CallsGemini] else []) +
    [DropsHold]
  }

  function Script(kind: Kind, o: Outcomes): seq<Event> {
    match kind
    case Probe => ProbeScript(o)
    case Normalize => NormalizeScript(o)
    case Transcribe => TranscribeScript(o)
  }

  // ----- what a request has done in a run

  /** What a client at this program counter does next; endActive's CAS is not recorded. */
  function EventsOf(pc: Pc, good: bool): seq<Event> {
    match pc
    case Entering => [TakesHold]
    case Waiting => [TakesSlot]
    case Admitted => [CountsIn]
    case Working(Launch(job)) => [if good then Started(job) else NotStarted(job)]
    case Working(Await(job)) => [Ended(job, good)]
    case Working(CreateTemp) => [if good then TempMade else TempRefused]
    case Working(Upload) => [Uploads]
    case Working(RemoveTemp) => [TempRemoved]
    case Leaving => [FreesSlot]
    case Dropping => [CountsOut]
    case Calling => [CallsGemini]
    case HoldDropping => [DropsHold]
    case _ => []
  }

  function EventsAt(s: State, a: Action, i: nat): seq<Event> {
    if i >= |s.clients| then []
    else match a
    case Move(j, good) => if j == i then EventsOf(s.clients[i].pc, good) else []
    case Cancel(j) => if j == i then [GivesUp] else []
    case _ => []
  }

  ghost predicate HasClient(states: seq<State>, i: nat) {
    forall k :: 0 <= k < |states| ==> i < |states[k].clients|
  }

  lemma ClientsStay(states: seq<State>, actions: seq<Action>, i: nat)
    requires IsRun(states, actions) && i < |states[0].clients|
    ensures HasClient(states, i)
  {
    forall k | 0 <= k < |states| ensures i < |states[k].clients| { WordsFixed(states, actions, k); }
  }

  /** The events of client i from step k on. */
  ghost function Trace(states: seq<State>, actions: seq<Action>, i: nat, k: nat): seq<Event>
    requires |states| == |actions| + 1 && k <= |actions|
    decreases |actions| - k
  {
    if k == |actions| then []
    else EventsAt(states[k], actions[k], i) + Trace(states, actions, i, k + 1)
  }

  // ----- the rest of a program, from each program counter on

  function Outcome(job: Job, o: Outcomes): JobOutcome {
    if job == Metadata || job == Cut then o.first else o.second
  }

  function WithOutcome(job: Job, o: Outcomes, x: JobOutcome): Outcomes {
    if job == Metadata || job == Cut then o.(first := x) else o.(second := x)
  }

  function Good(o: JobOutcome): bool {
    o == Ran(true)
  }

  function RunThen(job: Job, o: JobOutcome, rest: seq<Event>): seq<Event> {
    if o.Stillborn? then [NotStarted(job)] + rest else [Started(job)] + ([Ended(job, o.good)] + rest)
  }

  function AfterSlot(held: bool, cutOk: bool): seq<Event> {
    if !held then [] else if cutOk then [CallsGemini] + [DropsHold] else [DropsHold]
  }

  function Exit(held: bool, cutOk: bool): seq<Event> {
    [FreesSlot] + ([CountsOut] + AfterSlot(held, cutOk))
  }

  function Cleanup(c: Client): seq<Event> {
    [TempRemoved] + Exit(c.held, c.cutOk)
  }

  function AfterEncode(c: Client, good: bool): seq<Event> {
    if good then [Uploads] + Cleanup(c) else Cleanup(c)
  }

  function FromTemp(c: Client, o: Outcomes): seq<Event> {
    if o.temp then [TempMade] + RunThen(Encode, o.second, AfterEncode(c, Good(o.second)))
    else [TempRefused] + Exit(c.held, c.cutOk)
  }

  function AfterMetadata(c: Client, good: bool, o: Outcomes): seq<Event> {
    if c.kind == Normalize then FromTemp(c, o)
    else if good then RunThen(Silence, o.second, Exit(c.held, c.cutOk))
    else Exit(c.held, c.cutOk)
  }

  function RestAfterJob(c: Client, job: Job, good: bool, o: Outcomes): seq<Event> {
    match job
    case Metadata => AfterMetadata(c, good, o)
    case Silence => Exit(c.held, c.cutOk)
    case Encode => AfterEncode(c, good)
    case Cut => Exit(c.held, good)
  }

  function RestOfTask(c: Client, task: Task, o: Outcomes): seq<Event> {
    match task
    case Launch(job) => RunThen(job, Outcome(job, o), RestAfterJob(c, job, Good(Outcome(job, o)), o))
    case Await(job) => [Ended(job, Good(Outcome(job, o)))] + RestAfterJob(c, job, Good(Outcome(job, o)), o)
    case CreateTemp => FromTemp(c, o)
    case Upload => [Uploads] + Cleanup(c)
    case RemoveTemp => Cleanup(c)
  }

  function RestAdmitted(c: Client, o: Outcomes): seq<Event> {
    [CountsIn] + RestOfTask(c, Launch(if c.kind == Transcribe then Cut else Metadata), o)
  }

  function RestWaiting(c: Client, o: Outcomes): seq<Event> {
    if o.admitted then [TakesSlot] + RestAdmitted(c, o)
    else [GivesUp] + if c.held then [DropsHold] else []
  }

  function Rest(c: Client, o: Outcomes): seq<Event> {
    match c.pc
    case Entering => [TakesHold] + RestWaiting(c.(held := true), o)
    case Waiting => RestWaiting(c, o)
    case Admitted => RestAdmitted(c, o)
    case Working(task) => RestOfTask(c, task, o)
    case Leaving => Exit(c.held, c.cutOk)
    case Dropping => [CountsOut] + AfterSlot(c.held, c.cutOk)
    case Calling => [CallsGemini] + [DropsHold]
    case HoldDropping => [DropsHold]
    case _ => []
  }

  // ----- one step uses up one event of the rest

  lemma WorkUses(c: Client, task: Task, good: bool, o: Outcomes) returns (p: Outcomes)
    requires c.pc == Working(task) && TaskShape(c, task)
    ensures Rest(c, p) == EventsOf(c.pc, good) + Rest(Work(c, task, good).next, o)
  {
    match task {
      case Launch(job) =>
        p := WithOutcome(job, o, if good then Ran(Good(Outcome(job, o))) else Stillborn);
        LaunchUses(c, job, good, o, p);
      case Await(job) =>
        p := WithOutcome(job, o, Ran(good));
        AwaitUses(c, job, good, o, p);
      case CreateTemp =>
        p := o.(temp := good);
        TempUses(c, good, o, p);
      case _ =>
        p := o;
        hide AfterJob;
    }
  }

  lemma LaunchUses(c: Client, job: Job, good: bool, o: Outcomes, p: Outcomes)
    requires c.pc == Working(Launch(job)) && JobShape(c, job)
    requires p == WithOutcome(job, o, if good then Ran(Good(Outcome(job, o))) else Stillborn)
    ensures Rest(c, p) == EventsOf(c.pc, good) + Rest(Work(c, Launch(job), good).next, o)
  {
  }

  lemma AwaitUses(c: Client, job: Job, good: bool, o: Outcomes, p: Outcomes)
    requires c.pc == Working(Await(job)) && JobShape(c, job)
    requires p == WithOutcome(job, o, Ran(good))
    ensures Rest(c, p) == EventsOf(c.pc, good) + Rest(Work(c, Await(job), good).next, o)
  {
  }

  lemma TempUses(c: Client, good: bool, o: Outcomes, p: Outcomes)
    requires c.pc == Working(CreateTemp) && p == o.(temp := good)
    ensures Rest(c, p) == EventsOf(c.pc, good) + Rest(Work(c, CreateTemp, good).next, o)
  {
  }

  lemma BehaveUses(c: Client, good: bool, w: Words, o: Outcomes) returns (p: Outcomes)
    requires WellFormed(c) && c.pc != Finished && WellFormed(Behave(c, good, w).next)
    ensures Rest(c, p) == EventsOf(c.pc, good) + Rest(Behave(c, good, w).next, o)
  {
    match c.pc {
      case Working(task) => p := WorkUses(c, task, good, o);
      case Waiting => p := o.(admitted := true);
      case _ => p := o;
    }
    hide Work, RestOfTask, AfterMetadata;
  }

  /** A step of the pool is a step of one client, or leaves it alone. */
  lemma StepUses(s: State, a: Action, i: nat, o: Outcomes) returns (p: Outcomes)
    requires Inv(s) && Enabled(s, a) && i < |s.clients|
    ensures i < |Next(s, a).clients|
    ensures Rest(s.clients[i], p) == EventsAt(s, a, i) + Rest(Next(s, a).clients[i], o)
  {
    p := o;
    if a.Move? && a.i == i {
      StepsAreLawful(s, a);
      OwnStep(s, a);
      hide Inv, Next, Behave, EventsOf, Rest;
      p := BehaveUses(s.clients[i], a.good, s.words, o);
    } else if a.Cancel? && a.i == i {
      OwnStep(s, a);
      p := o.(admitted := false);
      hide Inv, Next;
    } else {
      OthersStay(s, a, i);
      hide Inv, Next, Rest;
    }
  }

  lemma OwnStep(s: State, a: Action)
    requires Accounts(s) && Enabled(s, a) && (a.Move? || a.Cancel?)
    ensures |Next(s, a).clients| == |s.clients| && WellFormed(s.clients[a.i])
    ensures Next(s, a).clients[a.i] == StepOf(s, a).next
  {
    hide Behave, GiveUp, WellFormed;
  }

  lemma OthersStay(s: State, a: Action, i: nat)
    requires Enabled(s, a) && i < |s.clients| && ((a.Move? || a.Cancel?) ==> a.i != i)
    ensures |Next(s, a).clients| == |s.clients|
    ensures Next(s, a).clients[i] == s.clients[i] && EventsAt(s, a, i) == []
  {
    hide Behave, GiveUp;
  }

  lemma NothingLeft(s: State, i: nat, o: Outcomes)
    requires Settled(s) && i < |s.clients|
    ensures Rest(s.clients[i], o) == []
  {
  }

  lemma {:induction false} TraceIsRest(states: seq<State>, actions: seq<Action>, i: nat, k: nat) returns (o: Outcomes)
    requires IsRun(states, actions) && Init(states[0]) && Settled(states[|actions|])
    requires HasClient(states, i) && k <= |actions|
    ensures Trace(states, actions, i, k) == Rest(states[k].clients[i], o)
    decreases |actions| - k
  {
    hide Inv, Init, Enabled, Next, Rest, EventsAt, Settled;
    if k == |actions| {
      o := Outcomes(false, Stillborn, false, Stillborn);
      NothingLeft(states[k], i, o);
    } else {
      o := TraceIsRest(states, actions, i, k + 1);
      RunKeeps(states, actions, k);
      assert StepAt(states, actions, k);
      o := StepUses(states[k], actions[k], i, o);
    }
  }

  lemma RunThenIs(job: Job, o: JobOutcome, rest: seq<Event>)
    ensures RunThen(job, o, rest) == RunOf(job, o) + rest
  {
  }

  lemma InSlotIs(body: seq<Event>)
    ensures [TakesSlot] + ([CountsIn] + (body + ([FreesSlot] + [CountsOut]))) == InSlot(body)
  {
  }

  /** Before its first step, all of its program is ahead of a request. */
  lemma WholeScript(kind: Kind, o: Outcomes)
    ensures Rest(NewClient(kind), o) == Script(kind, o)
  {
    match kind {
      case Probe => WholeProbe(o);
      case Normalize => WholeNormalize(o);
      case Transcribe => WholeTranscribe(o);
    }
  }

  lemma WholeProbe(o: Outcomes)
    ensures Rest(NewClient(Probe), o) == ProbeScript(o)
  {
    hide RunThen, RunOf, InSlot;
    var exit := [FreesSlot] + [CountsOut];
    var second := if o.first == Ran(true) then RunOf(Silence, o.second) else [];
    RunThenIs(Silence, o.second, exit);
    RunThenIs(Metadata, o.first, second + exit);
    InSlotIs(RunOf(Metadata, o.first) + second);
    assert Exit(false, false) == exit && [] + exit == exit;
    assert RunOf(Metadata, o.first) + second + exit == RunOf(Metadata, o.first) + (second + exit);
    assert AfterMetadata(NewClient(Probe), o.first == Ran(true), o) == second + exit;
  }

  lemma WholeNormalize(o: Outcomes)
    ensures Rest(NewClient(Normalize), o) == NormalizeScript(o)
  {
    hide RunThen, RunOf, InSlot;
    var exit := [FreesSlot] + [CountsOut];
    var put := if o.second == Ran(true) then [Uploads] else [];
    var work := if !o.temp then [TempRefused] else [TempMade] + Transfer(o.second) + [TempRemoved];
    var c := NewClient(Normalize);
    RunThenIs(Encode, o.second, put + ([TempRemoved] + exit));
    RunThenIs(Metadata, o.first, work + exit);
    InSlotIs(RunOf(Metadata, o.first) + work);
    assert AfterEncode(c, o.second == Ran(true)) == put + ([TempRemoved] + exit);
    assert FromTemp(c, o) == work + exit;
    assert RunOf(Metadata, o.first) + work + exit == RunOf(Metadata, o.first) + (work + exit);
  }

  lemma WholeTranscribe(o: Outcomes)
    ensures Rest(NewClient(Transcribe), o) == TranscribeScript(o)
  {
    hide RunThen, RunOf, InSlot;
    var exit := [FreesSlot] + [CountsOut];
    var call := if o.first == Ran(true) then [CallsGemini] else [];
    var body := RunOf(Cut, o.first);
    RunThenIs(Cut, o.first, exit + (call + [DropsHold]));
    InSlotIs(body);
    assert Exit(true, o.first == Ran(true)) == exit + (call + [DropsHold]);
    assert [TakesSlot] + ([CountsIn] + (body + (exit + (call + [DropsHold])))) ==
      [TakesSlot] + ([CountsIn] + (body + exit)) + (call + [DropsHold]);
  }

  /** In a run that settles, what a request has done is its operation's program, from the
      first step to the last. */
  lemma RequestsFollowTheirScripts(states: seq<State>, actions: seq<Action>, i: nat) returns (o: Outcomes)
    requires IsRun(states, actions) && Init(states[0]) && Settled(states[|actions|])
    requires i < |states[0].clients|
    ensures Trace(states, actions, i, 0) == Script(states[0].clients[i].kind, o)
  {
    ClientsStay(states, actions, i);
    o := TraceIsRest(states, actions, i, 0);
    assert states[0].clients[i] == NewClient(states[0].clients[i].kind);
    WholeScript(states[0].clients[i].kind, o);
  }

  // ----- which steps follow which

  /** A child of client i that was doing this job ended well. */
  ghost predicate EndedWell(states: seq<State>, actions: seq<Action>, i: nat, job: Job)
    requires |states| == |actions| + 1
  {
    exists k :: 0 <= k < |actions| && actions[k] == Move(i, true) && At(states[k], i, Working(Await(job)))
  }

  predicate At(s: State, i: nat, pc: Pc) {
    i < |s.clients| && s.clients[i].pc == pc
  }

  ghost predicate Reaches(states: seq<State>, i: nat, pc: Pc) {
    exists k :: 0 <= k < |states| && At(states[k], i, pc)
  }

  /** A request that gets somewhere in a run that settles goes on from there. */
  lemma {:induction false} GoesOn(states: seq<State>, actions: seq<Action>, i: nat, k: nat) returns (m: nat, good: bool)
    requires IsRun(states, actions) && Settled(states[|actions|]) && HasClient(states, i)
    requires k < |states| && states[k].clients[i].pc != Finished && states[k].clients[i].pc != Waiting
    ensures k <= m < |actions| && actions[m] == Move(i, good)
    ensures states[m].clients[i].pc == states[k].clients[i].pc
    decreases |states| - k
  {
    assert StepAt(states, actions, k);
    if actions[k].Move? && actions[k].i == i {
      m, good := k, actions[k].good;
    } else {
      hide Behave, GiveUp;
      m, good := GoesOn(states, actions, i, k + 1);
    }
  }

  lemma {:induction false} TraceWhere(states: seq<State>, actions: seq<Action>, i: nat, k: nat, e: Event) returns (m: nat)
    requires |states| == |actions| + 1 && k <= |actions| && HasClient(states, i)
    requires e in Trace(states, actions, i, k)
    ensures k <= m < |actions| && e in EventsAt(states[m], actions[m], i)
    decreases |actions| - k
  {
    hide EventsAt;
    m := k;
    if e !in EventsAt(states[k], actions[k], i) {
      m := TraceWhere(states, actions, i, k + 1, e);
    }
  }

  lemma {:induction false} TraceHas(states: seq<State>, actions: seq<Action>, i: nat, k: nat, m: nat, e: Event)
    requires |states| == |actions| + 1 && k <= m < |actions| && HasClient(states, i)
    requires e in EventsAt(states[m], actions[m], i)
    ensures e in Trace(states, actions, i, k)
    decreases |actions| - k
  {
    hide EventsAt;
    if k < m {
      TraceHas(states, actions, i, k + 1, m, e);
    }
  }

  lemma EndedWellIs(states: seq<State>, actions: seq<Action>, i: nat, job: Job)
    requires |states| == |actions| + 1 && HasClient(states, i)
    ensures EndedWell(states, actions, i, job) <==> Ended(job, true) in Trace(states, actions, i, 0)
  {
    hide Trace;
    if Ended(job, true) in Trace(states, actions, i, 0) {
      var k := TraceWhere(states, actions, i, 0, Ended(job, true));
      assert actions[k] == Move(i, true) && At(states[k], i, Working(Await(job)));
    }
    if k: nat :| 0 <= k < |actions| && actions[k] == Move(i, true) && At(states[k], i, Working(Await(job))) {
      TraceHas(states, actions, i, 0, k, Ended(job, true));
    }
  }

  /** The events that mark a program counter: done there, and nowhere else. */
  ghost predicate Marks(pc: Pc, e: Event, f: Event) {
    && pc != Finished && pc != Waiting && e != GivesUp && f != GivesUp
    && forall q, good :: (q == pc <==> e in EventsOf(q, good) || f in EventsOf(q, good))
  }

  lemma VisitLeavesEvent(states: seq<State>, actions: seq<Action>, i: nat, k: nat, e: Event, f: Event)
    requires IsRun(states, actions) && Settled(states[|actions|]) && HasClient(states, i)
    requires k < |states| && Marks(states[k].clients[i].pc, e, f)
    ensures e in Trace(states, actions, i, 0) || f in Trace(states, actions, i, 0)
  {
    hide EventsOf, Trace, StepAt, Settled;
    var m, good := GoesOn(states, actions, i, k);
    if e in EventsOf(states[m].clients[i].pc, good) {
      TraceHas(states, actions, i, 0, m, e);
    } else {
      TraceHas(states, actions, i, 0, m, f);
    }
  }

  lemma EventTellsVisit(states: seq<State>, actions: seq<Action>, i: nat, pc: Pc, e: Event)
    requires |states| == |actions| + 1 && HasClient(states, i)
    requires e != GivesUp && forall q, good :: e in EventsOf(q, good) ==> q == pc
    requires e in Trace(states, actions, i, 0)
    ensures Reaches(states, i, pc)
  {
    hide EventsOf, Trace;
    var m := TraceWhere(states, actions, i, 0, e);
    assert At(states[m], i, pc);
  }

  lemma ReachesIs(states: seq<State>, actions: seq<Action>, i: nat, pc: Pc, e: Event, f: Event)
    requires IsRun(states, actions) && Settled(states[|actions|]) && HasClient(states, i)
    requires Marks(pc, e, f)
    ensures Reaches(states, i, pc) <==>
      e in Trace(states, actions, i, 0) || f in Trace(states, actions, i, 0)
  {
    if Reaches(states, i, pc) {
      hide Marks, Trace, StepAt, Settled, HasClient;
      var k: nat :| k < |states| && At(states[k], i, pc);
      VisitLeavesEvent(states, actions, i, k, e, f);
    } else {
      hide EventsOf, Trace, StepAt, Settled, HasClient, Reaches;
      if e in Trace(states, actions, i, 0) { EventTellsVisit(states, actions, i, pc, e); }
      if f in Trace(states, actions, i, 0) { EventTellsVisit(states, actions, i, pc, f); }
    }
  }

  /** What can be read off the programs: a good end is always followed up, and nothing else is. */
  ghost predicate FollowsUp(kind: Kind, t: seq<Event>) {
    && (CallsGemini in t <==> Ended(Cut, true) in t)
    && (Uploads in t <==> Ended(Encode, true) in t)
    && (kind == Probe ==> (Started(Silence) in t || NotStarted(Silence) in t <==> Ended(Metadata, true) in t))
  }

  lemma ScriptsFollowUp(kind: Kind, o: Outcomes)
    ensures FollowsUp(kind, Script(kind, o))
  {
    match kind {
      case Probe => ProbeFollowsUp(o);
      case Normalize => NormalizeFollowsUp(o);
      case Transcribe => TranscribeFollowsUp(o);
    }
    hide ProbeScript, NormalizeScript, TranscribeScript, FollowsUp;
  }

  lemma ProbeFollowsUp(o: Outcomes)
    ensures FollowsUp(Probe, ProbeScript(o))
  {
  }

  lemma NormalizeFollowsUp(o: Outcomes)
    ensures FollowsUp(Normalize, NormalizeScript(o))
  {
    hide InSlot, RunOf, Transfer, FollowsUp;
    TransferFollowsUp(o.second);
    var work := if !o.temp then [TempRefused] else [TempMade] + Transfer(o.second) + [TempRemoved];
    FollowUpsCompose([TempMade], Transfer(o.second));
    FollowUpsCompose([TempMade] + Transfer(o.second), [TempRemoved]);
    MetadataFollowsUp(o.first);
    FollowUpsCompose(RunOf(Metadata, o.first), work);
    SlotFollowsUp(RunOf(Metadata, o.first) + work);
  }

  lemma FollowUpsCompose(a: seq<Event>, b: seq<Event>)
    ensures FollowsUp(Normalize, a) && FollowsUp(Normalize, b) ==> FollowsUp(Normalize, a + b)
    ensures forall e :: e == GivesUp || e == TempMade || e == TempRefused || e == TempRemoved ==> FollowsUp(Normalize, [e])
  {
  }

  lemma TransferFollowsUp(o: JobOutcome)
    ensures FollowsUp(Normalize, Transfer(o))
  {
  }

  lemma MetadataFollowsUp(o: JobOutcome)
    ensures FollowsUp(Normalize, RunOf(Metadata, o))
  {
  }

  lemma SlotFollowsUp(body: seq<Event>)
    requires FollowsUp(Normalize, body)
    ensures FollowsUp(Normalize, InSlot(body))
  {
  }

  lemma TranscribeFollowsUp(o: Outcomes)
    ensures FollowsUp(Transcribe, TranscribeScript(o))
  {
  }

  lemma TheseMark()
    ensures Marks(Calling, CallsGemini, CallsGemini)
    ensures Marks(Working(Upload), Uploads, Uploads)
    ensures Marks(Working(Launch(Silence)), Started(Silence), NotStarted(Silence))
  {
  }

  /** A Transcribe calls Gemini exactly if its cut succeeds. */
  lemma GeminiIsCalledIffCut(states: seq<State>, actions: seq<Action>, i: nat)
    requires IsRun(states, actions) && Init(states[0]) && Settled(states[|actions|])
    requires i < |states[0].clients|
    ensures Reaches(states, i, Calling) <==> EndedWell(states, actions, i, Cut)
  {
    ClientsStay(states, actions, i);
    hide Marks, Script, Trace, Reaches, EndedWell, StepAt, Init;
    TheseMark();
    var o := RequestsFollowTheirScripts(states, actions, i);
    ScriptsFollowUp(states[0].clients[i].kind, o);
    ReachesIs(states, actions, i, Calling, CallsGemini, CallsGemini);
    EndedWellIs(states, actions, i, Cut);
  }

  /** A Normalize uploads exactly if its encoding ends well. */
  lemma UploadsIffEncoded(states: seq<State>, actions: seq<Action>, i: nat)
    requires IsRun(states, actions) && Init(states[0]) && Settled(states[|actions|])
    requires i < |states[0].clients|
    ensures Reaches(states, i, Working(Upload)) <==> EndedWell(states, actions, i, Encode)
  {
    ClientsStay(states, actions, i);
    hide Marks, Script, Trace, Reaches, EndedWell, StepAt, Init;
    TheseMark();
    var o := RequestsFollowTheirScripts(states, actions, i);
    ScriptsFollowUp(states[0].clients[i].kind, o);
    ReachesIs(states, actions, i, Working(Upload), Uploads, Uploads);
    EndedWellIs(states, actions, i, Encode);
  }

  /** A Probe goes on to the silence pass exactly if its metadata is good. */
  lemma SilencePassIffMetadata(states: seq<State>, actions: seq<Action>, i: nat)
    requires IsRun(states, actions) && Init(states[0]) && Settled(states[|actions|])
    requires i < |states[0].clients| && states[0].clients[i].kind == Probe
    ensures Reaches(states, i, Working(Launch(Silence))) <==> EndedWell(states, actions, i, Metadata)
  {
    ClientsStay(states, actions, i);
    hide Marks, Script, Trace, Reaches, EndedWell, StepAt, Init;
    TheseMark();
    var o := RequestsFollowTheirScripts(states, actions, i);
    ScriptsFollowUp(states[0].clients[i].kind, o);
    ReachesIs(states, actions, i, Working(Launch(Silence)), Started(Silence), NotStarted(Silence));
    EndedWellIs(states, actions, i, Metadata);
  }
}
