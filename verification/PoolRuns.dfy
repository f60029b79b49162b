/** Whole runs of the pool: accounting, resource bounds, the scavenge ledger, the Hold,
    termination and absence of deadlock. */
module PoolRuns {
  import opened EngineWords
  import opened Pool
  import opened PoolSafety

  // ----- accounting and resources in every reachable state

  lemma PoolAccounting(states: seq<State>, actions: seq<Action>, k: nat)
    requires IsRun(states, actions) && Init(states[0]) && k < |states|
    ensures var s := states[k];
      && s.words.occupied == Sum(Slot, s.clients)
      && 0 <= s.words.occupied <= s.words.workers
      && s.words.active == Sum(Busy, s.clients) >= 0
  {
    RunKeeps(states, actions, k);
    SharesNonneg(states[k]);
  }

  /** Temp files live inside their owners' slots, and children inside occupied slots: this
      is what the order of Normalize's two defers is for. */
  lemma ResourcesStayInsideSlots(states: seq<State>, actions: seq<Action>, k: nat)
    requires IsRun(states, actions) && Init(states[0]) && k < |states|
    ensures var s := states[k];
      && 0 <= s.temps <= Sum(NormalizeSlot, s.clients) <= s.words.occupied
      && 0 <= s.children <= s.words.occupied <= s.words.workers
  {
    RunKeeps(states, actions, k);
    var cs := states[k].clients;
    SumNonneg(TempFile, cs);
    SumNonneg(Child, cs);
    SumMonotone(TempFile, NormalizeSlot, cs);
    SumMonotone(NormalizeSlot, Slot, cs);
    SumMonotone(Child, Slot, cs);
  }

  // ----- the scavenge ledger

  lemma ScavengeLedger(states: seq<State>, actions: seq<Action>, k: nat)
    requires IsRun(states, actions) && Init(states[0]) && k < |states|
    ensures var s := states[k]; var l := s.ledger;
      && (s.words.scavenging <==> Sum(Spawner, s.clients) + s.reclaiming + s.storing == 1)
      && 0 <= Sum(Spawner, s.clients) + s.reclaiming + s.storing <= 1
      && l.drains == l.started + l.dropped + Sum(Trigger, s.clients)
      && l.stored <= l.reclaimed <= l.started <= l.drains <= l.busyPeriods
  {
    RunKeeps(states, actions, k);
    SharesNonneg(states[k]);
    DrainsBounded(states, actions, k);
  }

  lemma DrainsBounded(states: seq<State>, actions: seq<Action>, k: nat)
    requires IsRun(states, actions) && Init(states[0]) && k < |states|
    ensures states[k].ledger.drains <= states[k].ledger.busyPeriods
  {
    RunKeeps(states, actions, k);
  }

  /** A pending trigger starts a scavenge exactly when none is in flight, and is dropped
      exactly when one is. */
  lemma TriggerStartsIffNoneInFlight(s: State, i: nat, good: bool)
    requires Inv(s) && i < |s.clients| && s.clients[i].pc == Firing
    ensures Enabled(s, Move(i, good))
    ensures var t := Next(s, Move(i, good));
      var inFlight := Sum(Spawner, s.clients) + s.reclaiming + s.storing;
      && (t.ledger.started == s.ledger.started + 1 <==> inFlight == 0)
      && (t.ledger.dropped == s.ledger.dropped + 1 <==> inFlight == 1)
  {
    hide Sum, Accounts, Balanced;
  }

  /** Somebody has won the CAS and not yet called FreeOSMemory. */
  ghost predicate ReclaimAhead(s: State) {
    Sum(Spawner, s.clients) + s.reclaiming > 0
  }

  /** After a pending trigger's CAS somebody is still to call FreeOSMemory, unless the CAS
      found a scavenger that had called it and not yet cleared its flag. */
  lemma TriggerReclaimsIff(s: State, i: nat, good: bool)
    requires Inv(s) && i < |s.clients| && s.clients[i].pc == Firing
    ensures ReclaimAhead(Next(s, Move(i, good))) <==> s.storing == 0
  {
    StepKeeps(s, Move(i, good));
    SharesNonneg(s);
    SharesNonneg(Next(s, Move(i, good)));
    TriggerStartsIffNoneInFlight(s, i, good);
    hide Accounts;
  }

  /** With scavenging on, a finished run in which any request got past its first increment
      has called FreeOSMemory at least once. */
  lemma QuiescentRunHasReclaimed(states: seq<State>, actions: seq<Action>, i: nat)
    requires IsRun(states, actions) && Init(states[0])
    requires states[0].words.scavengeOnIdle
    requires var last := states[|actions|];
      Settled(last) && i < |last.clients| && last.clients[i].counted
    ensures states[|actions|].ledger.reclaimed >= 1
  {
    var last := states[|actions|];
    RunKeeps(states, actions, |actions|);
    WordsFixed(states, actions, |actions|);
    SettledTotals(last);
  }

  lemma {:induction false} WordsFixed(states: seq<State>, actions: seq<Action>, k: nat)
    requires IsRun(states, actions) && k < |states|
    ensures states[k].words.scavengeOnIdle == states[0].words.scavengeOnIdle
    ensures states[k].words.workers == states[0].words.workers
    ensures |states[k].clients| == |states[0].clients|
  {
    if k > 0 {
      WordsFixed(states, actions, k - 1);
      assert StepAt(states, actions, k - 1);
      StepFixes(states[k - 1], actions[k - 1]);
    }
  }

  lemma StepFixes(s: State, a: Action)
    requires Enabled(s, a)
    ensures Next(s, a).words.scavengeOnIdle == s.words.scavengeOnIdle
    ensures Next(s, a).words.workers == s.words.workers
    ensures |Next(s, a).clients| == |s.clients|
  {
    hide Behave, GiveUp;
  }

  lemma SettledTotals(s: State)
    requires Inv(s) && Settled(s)
    ensures s.words.occupied == 0 && s.words.active == 0 && !s.words.scavenging
    ensures s.temps == 0 && s.children == 0 && Sum(Trigger, s.clients) == 0
    ensures Sum(Spawner, s.clients) == 0
  {
    SumZero(Slot, s.clients);
    SumZero(Busy, s.clients);
    SumZero(TempFile, s.clients);
    SumZero(Child, s.clients);
    SumZero(Trigger, s.clients);
    SumZero(Spawner, s.clients);
  }

  // ----- every drain is followed by the end of some scavenge

  ghost predicate DrainStep(states: seq<State>, k: nat)
    requires k + 1 < |states|
  {
    states[k + 1].ledger.drains > states[k].ledger.drains
  }

  /** A drain is owed a scavenge while its trigger is pending or one is in flight. */
  ghost predicate Owed(s: State, i: nat) {
    i < |s.clients| && (s.clients[i].pc == Firing || s.words.scavenging)
  }

  lemma OnlyStoreSettlesDebt(s: State, a: Action, i: nat)
    requires Inv(s) && Enabled(s, a) && Owed(s, i) && a != Store
    ensures Owed(Next(s, a), i)
  {
    hide Work, Inv;
  }

  lemma DrainOwes(s: State, a: Action)
    requires Enabled(s, a) && Next(s, a).ledger.drains > s.ledger.drains
    ensures a.Move? && Owed(Next(s, a), a.i)
  {
  }

  lemma {:induction false} DebtLasts(states: seq<State>, actions: seq<Action>, i: nat, k: nat, m: nat)
    requires IsRun(states, actions) && Init(states[0])
    requires k <= m < |states| && Owed(states[k], i)
    requires forall j :: k <= j < m ==> actions[j] != Store
    ensures Owed(states[m], i)
  {
    if k < m {
      DebtLasts(states, actions, i, k, m - 1);
      RunKeeps(states, actions, m - 1);
      assert StepAt(states, actions, m - 1);
      hide Inv, Enabled, Next, Owed;
      OnlyStoreSettlesDebt(states[m - 1], actions[m - 1], i);
    }
  }

  /** Every drain of a run that settles is followed by a scavenger finishing. It may be one
      that started before the drain: see PoolExamples.DrainWithoutLaterReclaim. */
  lemma EveryDrainOutlivesAScavenge(states: seq<State>, actions: seq<Action>, k: nat)
    requires IsRun(states, actions) && Init(states[0]) && Settled(states[|actions|])
    requires k < |actions| && DrainStep(states, k)
    ensures exists m :: k < m < |actions| && actions[m] == Store
  {
    assert StepAt(states, actions, k);
    DrainOwes(states[k], actions[k]);
    var i := actions[k].i;
    if forall j :: k + 1 <= j < |actions| ==> actions[j] != Store {
      DebtLasts(states, actions, i, k + 1, |actions|);
      RunKeeps(states, actions, |actions|);
      SettledTotals(states[|actions|]);
      assert false;
    }
  }

  // ----- which drains are followed by FreeOSMemory

  /** The step is a client's attempt at the CAS. */
  predicate Tries(s: State, a: Action) {
    a.Move? && a.i < |s.clients| && s.clients[a.i].pc == Firing
  }

  ghost predicate ReclaimFrom(actions: seq<Action>, k: nat) {
    exists m :: k <= m < |actions| && actions[m] == Reclaim
  }

  ghost predicate WinFrom(states: seq<State>, actions: seq<Action>, k: nat)
    requires |states| == |actions| + 1
  {
    exists m :: k <= m < |actions| && Tries(states[m], actions[m]) && !states[m].words.scavenging
  }

  ghost predicate MeetsNoStorer(states: seq<State>, actions: seq<Action>, k: nat)
    requires |states| == |actions| + 1
  {
    exists m :: k <= m < |actions| && Tries(states[m], actions[m]) && states[m].storing == 0
  }

  /** Only Reclaim counts as reclaiming, and only a CAS that finds the flag down as a start. */
  lemma StepLedger(s: State, a: Action)
    requires Enabled(s, a)
    ensures Next(s, a).ledger.reclaimed == s.ledger.reclaimed + if a == Reclaim then 1 else 0
    ensures Next(s, a).ledger.started ==
      s.ledger.started + if Tries(s, a) && !s.words.scavenging then 1 else 0
    ensures Next(s, a).ledger.dropped >= s.ledger.dropped
  {
    if a.Move? && s.clients[a.i].pc.Working? {
      WorkIsQuiet(s.clients[a.i], s.clients[a.i].pc.task, a.good);
    }
    hide Work;
  }

  lemma {:induction false} LedgerGrows(states: seq<State>, actions: seq<Action>, k: nat, n: nat)
    requires IsRun(states, actions) && k <= n < |states|
    ensures var l, m := states[k].ledger, states[n].ledger;
      && l.reclaimed <= m.reclaimed && (l.reclaimed < m.reclaimed <==> ReclaimFrom(actions[..n], k))
      && l.started <= m.started && (l.started < m.started <==> WinFrom(states[..n + 1], actions[..n], k))
      && l.dropped <= m.dropped
  {
    if k < n {
      LedgerGrows(states, actions, k, n - 1);
      assert StepAt(states, actions, n - 1);
      hide Enabled, Next, Tries;
      StepLedger(states[n - 1], actions[n - 1]);
      assert actions[..n] == actions[..n - 1] + [actions[n - 1]];
      assert states[..n + 1] == states[..n] + [states[n]];
    }
  }

  /** In a run that settles, FreeOSMemory is called from step k on exactly if somebody had
      won the CAS and not yet called it, or somebody wins the CAS later. */
  lemma LaterReclaimIff(states: seq<State>, actions: seq<Action>, k: nat)
    requires IsRun(states, actions) && Init(states[0]) && Settled(states[|actions|])
    requires k < |states|
    ensures ReclaimFrom(actions, k) <==> ReclaimAhead(states[k]) || WinFrom(states, actions, k)
  {
    var last := |actions|;
    RunKeeps(states, actions, k);
    RunKeeps(states, actions, last);
    SharesNonneg(states[k]);
    SettledTotals(states[last]);
    LedgerGrows(states, actions, k, last);
    assert actions[..last] == actions && states[..last + 1] == states;
    hide Accounts, Sum, ReclaimFrom, WinFrom;
  }

  /** Exactly which drains are followed by FreeOSMemory: those at which somebody has still
      to call it, and those after which some trigger, their own or a later one, finds no
      scavenger between its call and the clearing of its flag. */
  lemma DrainIsReclaimedIff(states: seq<State>, actions: seq<Action>, k: nat)
    requires IsRun(states, actions) && Init(states[0]) && Settled(states[|actions|])
    requires k < |actions| && DrainStep(states, k)
    ensures ReclaimFrom(actions, k + 1) <==>
      ReclaimAhead(states[k + 1]) || MeetsNoStorer(states, actions, k + 1)
  {
    LaterReclaimIff(states, actions, k + 1);
    if m :| k + 1 <= m < |actions| && Tries(states[m], actions[m]) && states[m].storing == 0 {
      assert StepAt(states, actions, m);
      RunKeeps(states, actions, m);
      TriggerReclaimsIff(states[m], actions[m].i, actions[m].good);
      LaterReclaimIff(states, actions, m + 1);
    }
    if m :| k + 1 <= m < |actions| && Tries(states[m], actions[m]) && !states[m].words.scavenging {
      RunKeeps(states, actions, m);
      SharesNonneg(states[m]);
    }
  }

  // ----- the Hold

  ghost predicate HeldThroughout(states: seq<State>, i: nat, a: nat, b: nat)
    requires a <= b < |states|
  {
    forall k :: a <= k <= b ==> i < |states[k].clients| && states[k].clients[i].held
  }

  /** While a Hold is out the engine stays busy and nobody's decrement is a drain edge, the
      holder's own segment cut included. The run may begin in any state of the invariant. */
  lemma {:induction false} HoldShields(states: seq<State>, actions: seq<Action>, i: nat, a: nat, b: nat)
    requires IsRun(states, actions) && Inv(states[0])
    requires a <= b < |states| && HeldThroughout(states, i, a, b)
    ensures states[b].words.active >= 1
    ensures states[b].ledger.drains == states[a].ledger.drains
  {
    RunKeepsFrom(states, actions, b);
    SharesNonneg(states[b]);
    if a < b {
      HoldShields(states, actions, i, a, b - 1);
      RunKeepsFrom(states, actions, b - 1);
      assert StepAt(states, actions, b - 1);
      HeldStepDoesNotDrain(states[b - 1], actions[b - 1], i);
    }
  }

  lemma HeldStepDoesNotDrain(s: State, a: Action, i: nat)
    requires Inv(s) && Enabled(s, a)
    requires i < |s.clients| && s.clients[i].held && Next(s, a).clients[i].held
    ensures Next(s, a).ledger.drains == s.ledger.drains
  {
    SharesNonneg(s);
    if a.Move? && a.i != i && Drains(s.words) {
      NoTwoBusy(s, i, a.i);
      BehavePays(s.clients[a.i], a.good, s.words);
      BehaveNonneg(s.clients[a.i], a.good, s.words);
      hide Behave;
    } else if a.Move? && a.i == i && Drains(s.words) {
      HeldDoesNotDrain(s.clients[i], a.good, s.words);
      hide Behave;
    }
  }

  lemma BehaveNonneg(c: Client, good: bool, w: Words)
    ensures Busy(Behave(c, good, w).next) >= 0
  {
  }

  lemma HeldDoesNotDrain(c: Client, good: bool, w: Words)
    requires Shape(c) && HoldShape(c) && c.held && Busy(c) <= 1
    ensures Behave(c, good, w).effect == Lowers ==> !Behave(c, good, w).next.held
  {
  }

  /** Two busy requests make the count at least two. */
  lemma NoTwoBusy(s: State, i: nat, j: nat)
    requires Accounts(s) && i < |s.clients| && j < |s.clients| && i != j
    requires Busy(s.clients[i]) >= 1 && s.words.active == 1
    ensures Busy(s.clients[j]) == 0
  {
    var idle := s.clients[i].(pc := Finished, held := false);
    var cs := s.clients[i := idle];
    SumUpdate(Busy, s.clients, i, idle);
    SumAtLeast(Busy, cs, j);
  }

  // ----- which scavenges can start while a Hold is out

  /** At most the triggers that were pending when the Hold began. */
  lemma StartsUnderHold(states: seq<State>, actions: seq<Action>, i: nat, a: nat, b: nat)
    requires IsRun(states, actions) && Inv(states[0])
    requires a <= b < |states| && HeldThroughout(states, i, a, b)
    ensures states[b].ledger.started <= states[a].ledger.started + Sum(Trigger, states[a].clients)
  {
    HoldShields(states, actions, i, a, b);
    RunKeepsFrom(states, actions, a);
    RunKeepsFrom(states, actions, b);
    SharesNonneg(states[b]);
    LedgerGrows(states, actions, a, b);
    hide Accounts, Sum, HeldThroughout;
  }

  /** A run from s, with the Hold of i out throughout, in which a scavenge starts. */
  ghost predicate StartsWhileHeld(s: State, i: nat, states: seq<State>, actions: seq<Action>) {
    && IsRun(states, actions) && states[0] == s
    && HeldThroughout(states, i, 0, |actions|)
    && states[|actions|].ledger.started > s.ledger.started
  }

  /** Steps until the flag is down, if the scavenger is hurried. */
  function Phase(s: State): nat {
    if !s.words.scavenging then 0 else if s.storing > 0 then 1 else if s.reclaiming > 0 then 2 else 3
  }

  lemma SomeClient(w: Client -> int, cs: seq<Client>) returns (i: nat)
    requires Sum(w, cs) != 0
    ensures i < |cs| && w(cs[i]) != 0
  {
    if forall k :: 0 <= k < |cs| ==> w(cs[k]) == 0 {
      SumZero(w, cs);
      assert false;
    }
    i :| i < |cs| && w(cs[i]) != 0;
  }

  /** The step that brings a pending trigger j closer to its start. */
  lemma HurryStep(s: State, i: nat, j: nat) returns (a: Action)
    requires Inv(s) && i < |s.clients| && s.clients[i].held
    requires j < |s.clients| && s.clients[j].pc == Firing && s.words.scavenging
    ensures Enabled(s, a)
    ensures var t := Next(s, a);
      && Phase(t) < Phase(s) && t.ledger.started == s.ledger.started
      && i < |t.clients| && t.clients[i].held && j < |t.clients| && t.clients[j].pc == Firing
  {
    if s.storing > 0 {
      a := Store;
    } else if s.reclaiming > 0 {
      a := Reclaim;
    } else {
      var m := SomeClient(Spawner, s.clients);
      a := Move(m, true);
    }
    hide Sum;
  }

  /** The trigger pending at j starts its scavenge, the Hold of i being out all the while. */
  lemma {:induction false} PendingTriggerCanStart(s: State, i: nat, j: nat)
    returns (states: seq<State>, actions: seq<Action>)
    requires Inv(s) && i < |s.clients| && s.clients[i].held
    requires j < |s.clients| && s.clients[j].pc == Firing
    ensures StartsWhileHeld(s, i, states, actions) && |actions| <= Phase(s) + 1
    decreases Phase(s)
  {
    hide Inv, Enabled, Next;
    if s.words.scavenging {
      var a := HurryStep(s, i, j);
      StepKeeps(s, a);
      states, actions := PendingTriggerCanStart(Next(s, a), i, j);
      Prepend(s, a, i, states, actions);
      states, actions := [s] + states, [a] + actions;
    } else {
      var t := WinningStep(s, i, j);
      states, actions := [s, t], [Move(j, true)];
    }
  }

  lemma WinningStep(s: State, i: nat, j: nat) returns (t: State)
    requires Inv(s) && i < |s.clients| && s.clients[i].held
    requires j < |s.clients| && s.clients[j].pc == Firing && !s.words.scavenging
    ensures Enabled(s, Move(j, true)) && t == Next(s, Move(j, true))
    ensures |t.clients| == |s.clients| && t.clients[i].held
    ensures t.ledger.started == s.ledger.started + 1
  {
    t := Next(s, Move(j, true));
    assert WellFormed(s.clients[j]);
  }

  lemma Prepend(s: State, a: Action, i: nat, states: seq<State>, actions: seq<Action>)
    requires Enabled(s, a) && i < |s.clients| && s.clients[i].held
    requires Next(s, a).ledger.started == s.ledger.started
    requires StartsWhileHeld(Next(s, a), i, states, actions)
    ensures StartsWhileHeld(s, i, [s] + states, [a] + actions)
  {
    hide Enabled, Next;
    var ss, aa := [s] + states, [a] + actions;
    forall k | 0 <= k < |aa| ensures StepAt(ss, aa, k) {
      if k > 0 {
        assert StepAt(states, actions, k - 1);
      }
    }
  }

  /** A Hold is out. A scavenge can start before it ends exactly if a trigger is pending
      already; so whoever takes a Hold when none is pending shuts scavenges out. */
  lemma ScavengeCanStartUnderHoldIff(s: State, i: nat)
    requires Inv(s) && i < |s.clients| && s.clients[i].held
    ensures (exists states, actions :: StartsWhileHeld(s, i, states, actions)) <==>
      Sum(Trigger, s.clients) > 0
  {
    if Sum(Trigger, s.clients) > 0 {
      var j := SomeClient(Trigger, s.clients);
      var states, actions := PendingTriggerCanStart(s, i, j);
      assert StartsWhileHeld(s, i, states, actions);
    }
    forall states, actions | StartsWhileHeld(s, i, states, actions)
      ensures Sum(Trigger, s.clients) > 0
    {
      StartsUnderHold(states, actions, i, 0, |actions|);
    }
  }

  /** The Gemini round trip is made only for a successful cut, after its slot has been given
      back, and with the engine held busy. */
  lemma GeminiCallsAreHeld(states: seq<State>, actions: seq<Action>, k: nat, i: nat)
    requires IsRun(states, actions) && Init(states[0]) && k < |states|
    requires i < |states[k].clients| && states[k].clients[i].pc == Calling
    ensures var c := states[k].clients[i];
      c.kind == Transcribe && c.cutOk && c.held && Slot(c) == 0 && states[k].words.active >= 1
  {
    RunKeeps(states, actions, k);
    SharesNonneg(states[k]);
    assert WellFormed(states[k].clients[i]);
  }

  // ----- termination

  function Measure(s: State): int {
    Sum(Fuel, s.clients) + 2 * s.reclaiming + s.storing
  }

  lemma WorkBurns(c: Client, task: Task, good: bool)
    requires c.pc == Working(task) && TaskShape(c, task)
    ensures Fuel(Work(c, task, good).next) < Fuel(c)
    ensures Work(c, task, good).effect != Spawns
  {
  }

  lemma BehaveBurns(c: Client, good: bool, w: Words)
    requires Shape(c) && HoldShape(c) && c.pc != Finished
    ensures var r := Behave(c, good, w);
      Fuel(r.next) + (if r.effect == Spawns then 2 else 0) < Fuel(c)
  {
    if c.pc.Working? {
      WorkBurns(c, c.pc.task, good);
    } else {
      hide Work, TaskFuel;
    }
  }

  /** Every step, the scavenger's and cancellations included, uses up some of the measure. */
  lemma StepBurns(s: State, a: Action)
    requires Inv(s) && Enabled(s, a)
    ensures Measure(Next(s, a)) < Measure(s)
  {
    if a.Move? || a.Cancel? {
      var c := s.clients[a.i];
      if a.Move? {
        BehaveBurns(c, a.good, s.words);
      } else {
        GiveUpBurns(c);
      }
      hide Inv, Behave, GiveUp, Apply, Fuel;
      ApplyBurns(s, a.i, StepOf(s, a));
    }
  }

  lemma GiveUpBurns(c: Client)
    requires c.pc == Waiting
    ensures GiveUp(c).effect == Nothing && Fuel(GiveUp(c).next) < Fuel(c)
  {
  }

  lemma ApplyBurns(s: State, i: nat, r: Step)
    requires i < |s.clients|
    requires Fuel(r.next) + (if r.effect == Spawns then 2 else 0) < Fuel(s.clients[i])
    ensures Measure(Apply(s, i, r)) < Measure(s)
  {
    hide Fuel;
    SumUpdate(Fuel, s.clients, i, r.next);
  }

  lemma MeasureNonneg(s: State)
    requires Inv(s)
    ensures 0 <= Measure(s) <= 24 * |s.clients| + 2
  {
    SharesNonneg(s);
    SumNonneg(Fuel, s.clients);
    SumBelow(Fuel, s.clients, 24);
  }

  lemma {:induction false} RunBurns(states: seq<State>, actions: seq<Action>, k: nat)
    requires IsRun(states, actions) && Init(states[0]) && k < |states|
    ensures Measure(states[k]) + k <= Measure(states[0])
  {
    if k > 0 {
      RunBurns(states, actions, k - 1);
      RunKeeps(states, actions, k - 1);
      assert StepAt(states, actions, k - 1);
      hide Inv, Enabled, Next, Measure;
      StepBurns(states[k - 1], actions[k - 1]);
    }
  }

  /** No run of n requests is longer than 22 n steps, however it is scheduled. */
  lemma RunsAreShort(states: seq<State>, actions: seq<Action>)
    requires IsRun(states, actions) && Init(states[0])
    ensures |actions| <= 22 * |states[0].clients|
  {
    RunBurns(states, actions, |actions|);
    RunKeeps(states, actions, |actions|);
    MeasureNonneg(states[|actions|]);
    SumBelow(Fuel, states[0].clients, 22);
  }

  // ----- no deadlock

  /** An unsettled state has an enabled step that needs no cancellation: the receive finds a
      token, and a waiting request finds room once nobody else can move. */
  lemma Progress(s: State)
    requires Inv(s) && !Settled(s)
    ensures exists a :: Enabled(s, a) && !a.Cancel?
  {
    SharesNonneg(s);
    if s.reclaiming > 0 {
      assert Enabled(s, Reclaim);
    } else if s.storing > 0 {
      assert Enabled(s, Store);
    } else if i :| 0 <= i < |s.clients| && s.clients[i].pc != Finished && s.clients[i].pc != Waiting {
      SumAtLeast(Slot, s.clients, i);
      assert Enabled(s, Move(i, true));
    } else {
      var i :| 0 <= i < |s.clients| && s.clients[i].pc != Finished;
      SumZero(Slot, s.clients);
      assert Enabled(s, Move(i, true));
    }
  }

  /** A run that cannot be extended, even if no context ever fires, has finished every
      request and given everything back. */
  lemma StuckRunsAreSettled(states: seq<State>, actions: seq<Action>)
    requires IsRun(states, actions) && Init(states[0])
    requires forall a :: Enabled(states[|actions|], a) ==> a.Cancel?
    ensures var last := states[|actions|];
      && Settled(last)
      && last.words.occupied == 0 && last.words.active == 0 && !last.words.scavenging
      && last.temps == 0 && last.children == 0
      && last.ledger.drains == last.ledger.started + last.ledger.dropped
      && last.ledger.started == last.ledger.reclaimed == last.ledger.stored
  {
    var last := states[|actions|];
    RunKeeps(states, actions, |actions|);
    if !Settled(last) {
      Progress(last);
      assert false;
    }
    SettledTotals(last);
  }
}
