/** The worker pool, the busy counter and the idle scavenger under every interleaving.

    A request is a client with a program counter; each step is one atomic action of the
    source (a channel send, an atomic add, a compare-and-swap, a child starting or
    exiting). All requests exist from the first state on: a request that arrives late is
    one whose first step comes late. */
module Pool {
  import opened EngineWords

  datatype Kind = Probe | Normalize | Transcribe

  datatype Pc =
    | Entering             // Transcribe: about to take the Hold
    | Waiting              // in acquire's select
    | Admitted             // channel send done, busy count not yet raised
    | Working(task: Task)  // inside the operation's body
    | Leaving              // the outer defer: about to receive from sem
    | Dropping             // received, busy count not yet lowered
    | Firing               // own decrement was a drain edge, CAS not yet tried
    | Spawning             // CAS won, goroutine not yet started
    | Calling              // Transcribe: the Gemini round trip
    | HoldDropping         // Transcribe: about to release the Hold
    | Finished

  datatype Task =
    | Launch(job: Job)     // about to start the child process
    | Await(job: Job)      // the child process is running
    | CreateTemp
    | Upload               // the PUT
    | RemoveTemp           // the inner defer: close and remove the temp file

  datatype Job = Metadata | Silence | Encode | Cut

  // held: the Hold is outstanding; temp: the request's temp file exists; cutOk: the segment
  // cut succeeded; counted: the request has raised the busy count at least once.
  datatype Client = Client(kind: Kind, pc: Pc, held: bool, temp: bool, cutOk: bool, counted: bool)

  // drains: decrements that reached zero with scavenging on; started/dropped: how their CAS ended;
  // reclaimed: calls of FreeOSMemory; stored: scavengers gone; busyPeriods: 0 -> 1 edges.
  datatype Ledger = Ledger(drains: nat, started: nat, dropped: nat, reclaimed: nat, stored: nat, busyPeriods: nat)

  // reclaiming and storing count scavenger goroutines before and after FreeOSMemory;
  // temps and children count live temp files and running ffmpeg/ffprobe processes.
  datatype State = State(
    clients: seq<Client>, words: Words,
    reclaiming: int, storing: int, temps: int, children: int, ledger: Ledger)

  // good is what the environment answers wherever the source branches on an outcome.
  datatype Action = Move(i: nat, good: bool) | Cancel(i: nat) | Reclaim | Store

  // ----- the step relation

  function NewClient(kind: Kind): Client {
    Client(kind, if kind == Transcribe then Entering else Waiting, false, false, false, false)
  }

  function InitState(kinds: seq<Kind>, configured: int, scavengeOnIdle: bool): State {
    State(seq(|kinds|, i requires 0 <= i < |kinds| => NewClient(kinds[i])),
          Fresh(configured, scavengeOnIdle), 0, 0, 0, 0, Ledger(0, 0, 0, 0, 0, 0))
  }

  ghost predicate Init(s: State) {
    exists kinds, configured, idle :: s == InitState(kinds, configured, idle)
  }

  predicate Enabled(s: State, a: Action) {
    match a
    case Move(i, _) =>
      && i < |s.clients|
      && s.clients[i].pc != Finished
      && (s.clients[i].pc == Waiting ==> HasRoom(s.words))
      && (s.clients[i].pc == Leaving ==> s.words.occupied > 0)
    case Cancel(i) => i < |s.clients| && s.clients[i].pc == Waiting
    case Reclaim => s.reclaiming > 0
    case Store => s.storing > 0
  }

  function Next(s: State, a: Action): State
    requires Enabled(s, a)
  {
    match a
    case Move(i, good) => Apply(s, i, Behave(s.clients[i], good, s.words))
    case Cancel(i) => Apply(s, i, GiveUp(s.clients[i]))
    case Reclaim =>
      s.(reclaiming := s.reclaiming - 1, storing := s.storing + 1,
         ledger := s.ledger.(reclaimed := s.ledger.reclaimed + 1))
    case Store =>
      s.(storing := s.storing - 1, words := SetScavenging(s.words, false),
         ledger := s.ledger.(stored := s.ledger.stored + 1))
  }

  /** The one thing a client step does to the shared state. */
  datatype Effect =
    | Nothing
    | Sends | Receives        // the sem channel
    | Raises | Lowers         // the active counter
    | Execs | Reaps           // a child process
    | MakesTemp | DeletesTemp
    | WinsCas | LosesCas      // the scavenging flag
    | Spawns                  // the scavenger goroutine

  datatype Step = Step(next: Client, effect: Effect)

  /** One step of a client; endActive's callers resume at AfterRelease. */
  function Behave(c: Client, good: bool, w: Words): Step {
    match c.pc
    case Entering => Step(c.(pc := Waiting, held := true, counted := true), Raises)
    case Waiting => Step(c.(pc := Admitted), Sends)
    case Admitted => Step(c.(pc := Working(Launch(if c.kind == Transcribe then Cut else Metadata)), counted := true), Raises)
    case Working(task) => Work(c, task, good)
    case Leaving => Step(c.(pc := Dropping), Receives)
    case Dropping => Step(if Drains(w) then c.(pc := Firing) else AfterRelease(c), Lowers)
    case Calling => Step(c.(pc := HoldDropping), Nothing)
    case HoldDropping => Step(c.(held := false, pc := if Drains(w) then Firing else Finished), Lowers)
    case Firing => if w.scavenging then Step(AfterRelease(c), LosesCas) else Step(c.(pc := Spawning), WinsCas)
    case Spawning => Step(AfterRelease(c), Spawns)
    case Finished => Step(c, Nothing)
  }

  /** The bodies of Probe, Normalize and SegmentCut, between acquire and the outer defer.
      A child that does not even start fails its job without ever running. */
  function Work(c: Client, task: Task, good: bool): Step {
    match task
    case Launch(job) =>
      if good then Step(c.(pc := Working(Await(job))), Execs) else Step(AfterJob(c, job, false), Nothing)
    case Await(job) => Step(AfterJob(c, job, good), Reaps)
    case CreateTemp =>
      if good then Step(c.(pc := Working(Launch(Encode)), temp := true), MakesTemp)
      else Step(c.(pc := Leaving), Nothing)
    case Upload => Step(c.(pc := Working(RemoveTemp)), Nothing)
    case RemoveTemp => Step(c.(pc := Leaving, temp := false), DeletesTemp)
  }

  /** Normalize treats the metadata read as best effort; Probe stops on a failed read and
      also, successfully, on a zero duration. */
  function AfterJob(c: Client, job: Job, good: bool): Client {
    match job
    case Metadata =>
      if c.kind == Normalize then c.(pc := Working(CreateTemp))
      else if good then c.(pc := Working(Launch(Silence))) else c.(pc := Leaving)
    case Silence => c.(pc := Leaving)
    case Encode => c.(pc := Working(if good then Upload else RemoveTemp))
    case Cut => c.(pc := Leaving, cutOk := good)
  }

  /** The context fires first: acquire returns, and a Transcribe still releases its Hold. */
  function GiveUp(c: Client): Step {
    Step(c.(pc := if c.held then HoldDropping else Finished), Nothing)
  }

  function AfterRelease(c: Client): Client {
    c.(pc := if !c.held then Finished else if c.cutOk then Calling else HoldDropping)
  }

  function Apply(s: State, i: nat, step: Step): State
    requires i < |s.clients|
  {
    var t := s.(clients := s.clients[i := step.next]);
    var l := s.ledger;
    match step.effect
    case Nothing => t
    case Sends => t.(words := Send(s.words))
    case Receives => t.(words := Receive(s.words))
    case Raises =>
      t.(words := Add(s.words, 1),
         ledger := l.(busyPeriods := l.busyPeriods + if s.words.active == 0 then 1 else 0))
    case Lowers =>
      t.(words := Add(s.words, -1),
         ledger := l.(drains := l.drains + if Drains(s.words) then 1 else 0))
    case Execs => t.(children := s.children + 1)
    case Reaps => t.(children := s.children - 1)
    case MakesTemp => t.(temps := s.temps + 1)
    case DeletesTemp => t.(temps := s.temps - 1)
    case WinsCas => t.(words := SetScavenging(s.words, true), ledger := l.(started := l.started + 1))
    case LosesCas => t.(ledger := l.(dropped := l.dropped + 1))
    case Spawns => t.(reclaiming := s.reclaiming + 1)
  }

  // ----- runs

  ghost predicate IsRun(states: seq<State>, actions: seq<Action>) {
    && |states| == |actions| + 1
    && forall k :: 0 <= k < |actions| ==> StepAt(states, actions, k)
  }

  ghost predicate StepAt(states: seq<State>, actions: seq<Action>, k: nat)
    requires |states| == |actions| + 1 && k < |actions|
  {
    Enabled(states[k], actions[k]) && states[k + 1] == Next(states[k], actions[k])
  }

  predicate Settled(s: State) {
    && (forall i :: 0 <= i < |s.clients| ==> s.clients[i].pc == Finished)
    && s.reclaiming == 0 && s.storing == 0
  }

  // ----- counting clients

  function Sum(w: Client -> int, cs: seq<Client>): int {
    if |cs| == 0 then 0 else w(cs[0]) + Sum(w, cs[1..])
  }

  lemma {:induction false} SumUpdate(w: Client -> int, cs: seq<Client>, i: nat, c: Client)
    requires i < |cs|
    ensures Sum(w, cs[i := c]) == Sum(w, cs) - w(cs[i]) + w(c)
  {
    if i == 0 {
      assert cs[i := c][1..] == cs[1..];
    } else {
      assert cs[i := c][1..] == cs[1..][i - 1 := c];
      SumUpdate(w, cs[1..], i - 1, c);
    }
  }

  /** Pointwise smaller weights have a smaller sum. */
  lemma {:induction false} SumMonotone(v: Client -> int, w: Client -> int, cs: seq<Client>)
    requires forall k :: 0 <= k < |cs| ==> v(cs[k]) <= w(cs[k])
    ensures Sum(v, cs) <= Sum(w, cs)
  {
    if |cs| > 0 {
      assert forall k :: 0 <= k < |cs[1..]| ==> cs[1..][k] == cs[k + 1];
      SumMonotone(v, w, cs[1..]);
    }
  }

  lemma {:induction false} SumAtLeast(w: Client -> int, cs: seq<Client>, i: nat)
    requires i < |cs|
    requires forall k :: 0 <= k < |cs| ==> w(cs[k]) >= 0
    ensures w(cs[i]) <= Sum(w, cs)
  {
    assert forall k :: 0 <= k < |cs[1..]| ==> cs[1..][k] == cs[k + 1];
    if i == 0 {
      SumNonneg(w, cs[1..]);
    } else {
      SumAtLeast(w, cs[1..], i - 1);
    }
  }

  lemma {:induction false} SumNonneg(w: Client -> int, cs: seq<Client>)
    requires forall k :: 0 <= k < |cs| ==> w(cs[k]) >= 0
    ensures Sum(w, cs) >= 0
  {
    if |cs| > 0 {
      assert forall k :: 0 <= k < |cs[1..]| ==> cs[1..][k] == cs[k + 1];
      SumNonneg(w, cs[1..]);
    }
  }

  lemma {:induction false} SumBelow(w: Client -> int, cs: seq<Client>, bound: int)
    requires forall k :: 0 <= k < |cs| ==> w(cs[k]) <= bound
    ensures Sum(w, cs) <= bound * |cs|
  {
    if |cs| > 0 {
      assert forall k :: 0 <= k < |cs[1..]| ==> cs[1..][k] == cs[k + 1];
      SumBelow(w, cs[1..], bound);
      assert bound * |cs| == bound * |cs[1..]| + bound;
    }
  }

  // ----- what a client owns

  /** Past the channel send and not yet past the receive. */
  function Slot(c: Client): int {
    match c.pc
    case Admitted | Working(_) | Leaving => 1
    case _ => 0
  }

  /** Increments of active not yet undone: the slot's own, and the Hold's. */
  function Busy(c: Client): int {
    (match c.pc
     case Working(_) | Leaving | Dropping => 1
     case _ => 0) + if c.held then 1 else 0
  }

  function TempFile(c: Client): int {
    if c.temp then 1 else 0
  }

  function Child(c: Client): int {
    if c.pc.Working? && c.pc.task.Await? then 1 else 0
  }

  function Trigger(c: Client): int {
    if c.pc == Firing then 1 else 0
  }

  function Spawner(c: Client): int {
    if c.pc == Spawning then 1 else 0
  }

  function NormalizeSlot(c: Client): int {
    if c.kind == Normalize then Slot(c) else 0
  }

  /** Steps the client can still cause, the two of a scavenger it may spawn included. An
      outstanding Hold is worth six: the Gemini call and the five of its release. */
  function Fuel(c: Client): int {
    (if c.held then 6 else 0) +
    match c.pc
    case Entering => 22
    case Waiting => 15
    case Admitted => 14
    case Working(task) => TaskFuel(task)
    case Leaving => 6
    case Dropping => 5
    case Firing => 4
    case Spawning => 3
    case Calling => 0
    case HoldDropping => -1
    case Finished => 0
  }

  function TaskFuel(task: Task): int {
    match task
    case Launch(job) => JobFuel(job) + 1
    case Await(job) => JobFuel(job)
    case CreateTemp => 11
    case Upload => 8
    case RemoveTemp => 7
  }

  function JobFuel(job: Job): int {
    match job
    case Metadata => 12
    case Encode => 9
    case Silence => 7
    case Cut => 7
  }

  // ----- the invariant

  /** Which program counters each kind of request visits, and when it has a temp file. */
  predicate Shape(c: Client) {
    match c.pc
    case Working(task) => TaskShape(c, task)
    case _ => !c.temp
  }

  predicate TaskShape(c: Client, task: Task) {
    match task
    case Launch(job) => JobShape(c, job)
    case Await(job) => JobShape(c, job)
    case CreateTemp => c.kind == Normalize && !c.temp
    case Upload => c.kind == Normalize && c.temp
    case RemoveTemp => c.kind == Normalize && c.temp
  }

  predicate JobShape(c: Client, job: Job) {
    match job
    case Metadata => c.kind != Transcribe && !c.temp
    case Silence => c.kind == Probe && !c.temp
    case Encode => c.kind == Normalize && c.temp
    case Cut => c.kind == Transcribe && !c.temp
  }

  /** When the Hold is out: from before the segment cut until after the Gemini call, which
      is only made on a cut. In particular a request whose Hold is out never has a drain
      of its own to report. */
  predicate HoldShape(c: Client) {
    && (c.held ==> c.kind == Transcribe)
    && match c.pc
       case Entering => !c.held && c.kind == Transcribe
       case Calling => c.held && c.cutOk
       case HoldDropping => c.held
       case Firing => !c.held
       case Spawning => !c.held
       case Finished => !c.held
       case _ => c.kind == Transcribe ==> c.held
  }

  /** A request that is busy, or has a drain to report, has raised the count before. */
  predicate Counted(c: Client) {
    Busy(c) > 0 || c.pc == Firing || c.pc == Spawning ==> c.counted
  }

  predicate WellFormed(c: Client) {
    Shape(c) && HoldShape(c) && Counted(c)
  }

  ghost predicate Accounts(s: State) {
    && s.words.workers >= 1
    && (forall i :: 0 <= i < |s.clients| ==> WellFormed(s.clients[i]))
    && s.words.occupied == Sum(Slot, s.clients) <= s.words.workers
    && s.words.active == Sum(Busy, s.clients)
    && s.temps == Sum(TempFile, s.clients)
    && s.children == Sum(Child, s.clients)
  }

  ghost predicate SingleFlight(s: State) {
    && s.reclaiming >= 0 && s.storing >= 0
    && Sum(Spawner, s.clients) + s.reclaiming + s.storing == (if s.words.scavenging then 1 else 0)
  }

  /** The ledger: where every drain's trigger has gone. */
  ghost predicate Balanced(s: State) {
    var l := s.ledger;
    && l.drains == l.started + l.dropped + Sum(Trigger, s.clients)
    && l.started == Sum(Spawner, s.clients) + s.reclaiming + l.reclaimed
    && l.reclaimed == s.storing + l.stored
    && (l.dropped > 0 ==> l.started > 0)
  }

  /** Every busy period but the current one has ended in exactly one drain. */
  ghost predicate Alternates(s: State) {
    var l := s.ledger;
    && (s.words.scavengeOnIdle ==> l.busyPeriods == l.drains + if s.words.active > 0 then 1 else 0)
    && (!s.words.scavengeOnIdle ==> l.drains == 0)
    && (s.words.active > 0 ==> l.busyPeriods > 0)
    && (forall i :: 0 <= i < |s.clients| && s.clients[i].counted ==> l.busyPeriods > 0)
  }

  ghost predicate Inv(s: State) {
    Accounts(s) && SingleFlight(s) && Balanced(s) && Alternates(s)
  }
}
