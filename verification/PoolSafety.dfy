/** What every step of the pool keeps, and what every run therefore satisfies. */
module PoolSafety {
  import opened EngineWords
  import opened Pool

  // ----- initial states

  lemma {:induction false} SumZero(w: Client -> int, cs: seq<Client>)
    requires forall k :: 0 <= k < |cs| ==> w(cs[k]) == 0
    ensures Sum(w, cs) == 0
  {
    if |cs| > 0 {
      assert forall k :: 0 <= k < |cs[1..]| ==> cs[1..][k] == cs[k + 1];
      SumZero(w, cs[1..]);
    }
  }

  lemma FreshOwnsNothing(kind: Kind)
    ensures var c := NewClient(kind);
      && WellFormed(c) && !c.counted
      && Slot(c) == 0 && Busy(c) == 0 && TempFile(c) == 0 && Child(c) == 0
      && Trigger(c) == 0 && Spawner(c) == 0
  {
  }

  lemma InitKeeps(s: State)
    requires Init(s)
    ensures Inv(s)
  {
    var kinds, configured, idle :| s == InitState(kinds, configured, idle);
    forall k | 0 <= k < |s.clients|
      ensures WellFormed(s.clients[k]) && !s.clients[k].counted
      ensures Slot(s.clients[k]) == 0 && Busy(s.clients[k]) == 0 && TempFile(s.clients[k]) == 0
      ensures Child(s.clients[k]) == 0 && Trigger(s.clients[k]) == 0 && Spawner(s.clients[k]) == 0
    {
      FreshOwnsNothing(kinds[k]);
    }
    hide WellFormed, Slot, Busy, TempFile, Child, Trigger, Spawner, NewClient;
    SumZero(Slot, s.clients);
    SumZero(Busy, s.clients);
    SumZero(TempFile, s.clients);
    SumZero(Child, s.clients);
    SumZero(Trigger, s.clients);
    SumZero(Spawner, s.clients);
    hide Sum;
  }

  // ----- one step of one client, seen from the client alone

  function StepOf(s: State, a: Action): (r: Step)
    requires Enabled(s, a) && (a.Move? || a.Cancel?)
    ensures Next(s, a) == Apply(s, a.i, r)
  {
    if a.Move? then Behave(s.clients[a.i], a.good, s.words) else GiveUp(s.clients[a.i])
  }

  function Delta(e: Effect, up: Effect, down: Effect): int {
    if e == up then 1 else if e == down then -1 else 0
  }

  /** What a step does to the shared counters is exactly what it does to the client's own
      share of them. */
  ghost predicate PaysItsWay(c: Client, r: Step) {
    && Slot(r.next) - Slot(c) == Delta(r.effect, Sends, Receives)
    && Busy(r.next) - Busy(c) == Delta(r.effect, Raises, Lowers)
    && TempFile(r.next) - TempFile(c) == Delta(r.effect, MakesTemp, DeletesTemp)
    && Child(r.next) - Child(c) == Delta(r.effect, Execs, Reaps)
    && Spawner(r.next) - Spawner(c) == Delta(r.effect, WinsCas, Spawns)
  }

  lemma WorkPays(c: Client, task: Task, good: bool)
    requires c.pc == Working(task) && TaskShape(c, task)
    ensures PaysItsWay(c, Work(c, task, good))
  {
  }

  lemma BehavePays(c: Client, good: bool, w: Words)
    requires Shape(c) && HoldShape(c)
    ensures PaysItsWay(c, Behave(c, good, w))
  {
    if c.pc.Working? {
      WorkPays(c, c.pc.task, good);
    } else {
      hide Work;
    }
  }

  lemma GiveUpPays(c: Client)
    requires WellFormed(c) && c.pc == Waiting
    ensures PaysItsWay(c, GiveUp(c))
  {
  }

  /** A trigger comes from a decrement that reached zero and goes into the CAS; a CAS is
      won exactly when the flag is down; a request is counted from its first increment on. */
  ghost predicate SettlesItsTrigger(c: Client, r: Step, w: Words) {
    && Trigger(r.next) - Trigger(c) ==
         (if r.effect == Lowers && Drains(w) then 1
          else if r.effect == WinsCas || r.effect == LosesCas then -1 else 0)
    && (r.effect == WinsCas ==> !w.scavenging)
    && (r.effect == LosesCas ==> w.scavenging)
    && (r.next.counted && !c.counted ==> r.effect == Raises)
  }

  lemma WorkIsQuiet(c: Client, task: Task, good: bool)
    requires c.pc == Working(task)
    ensures var r := Work(c, task, good);
      && (r.next.pc.Working? || r.next.pc.Leaving?) && r.next.counted == c.counted
      && (r.effect == Nothing || r.effect == Execs || r.effect == Reaps || r.effect == MakesTemp || r.effect == DeletesTemp)
  {
  }

  lemma BehaveTriggers(c: Client, good: bool, w: Words)
    ensures SettlesItsTrigger(c, Behave(c, good, w), w)
  {
    if c.pc.Working? { WorkIsQuiet(c, c.pc.task, good); }
    hide Work;
  }

  lemma WorkKeepsShape(c: Client, task: Task, good: bool)
    requires c.pc == Working(task) && TaskShape(c, task)
    ensures Shape(Work(c, task, good).next)
    ensures Work(c, task, good).next.held == c.held && Work(c, task, good).next.kind == c.kind
    ensures Work(c, task, good).next.pc.Working? || Work(c, task, good).next.pc.Leaving?
  {
  }

  lemma BehaveKeepsShape(c: Client, good: bool, w: Words)
    requires Shape(c) && HoldShape(c)
    requires Drains(w) && c.pc == Dropping ==> !c.held
    ensures Shape(Behave(c, good, w).next) && HoldShape(Behave(c, good, w).next)
  {
    if c.pc.Working? {
      WorkKeepsShape(c, c.pc.task, good);
    } else {
      hide Work;
    }
  }

  lemma BehaveKeepsCounted(c: Client, good: bool, w: Words)
    requires Counted(c) && (c.pc.HoldDropping? ==> c.held)
    ensures Counted(Behave(c, good, w).next)
  {
  }

  lemma SharesNonneg(s: State)
    requires Accounts(s)
    ensures forall k :: 0 <= k < |s.clients| ==> 0 <= Busy(s.clients[k]) <= s.words.active
    ensures Sum(Spawner, s.clients) >= 0 && Sum(Trigger, s.clients) >= 0
    ensures s.words.active >= 0 && s.words.occupied >= 0
  {
    SumNonneg(Spawner, s.clients);
    SumNonneg(Trigger, s.clients);
    SumNonneg(Busy, s.clients);
    SumNonneg(Slot, s.clients);
    forall k | 0 <= k < |s.clients|
      ensures 0 <= Busy(s.clients[k]) <= s.words.active
    {
      SumAtLeast(Busy, s.clients, k);
    }
  }

  ghost predicate Lawful(s: State, i: nat, r: Step)
    requires i < |s.clients|
  {
    && PaysItsWay(s.clients[i], r)
    && SettlesItsTrigger(s.clients[i], r, s.words)
    && WellFormed(r.next)
    && (r.effect == Sends ==> HasRoom(s.words))
  }

  lemma StepsAreLawful(s: State, a: Action)
    requires Accounts(s) && Enabled(s, a) && (a.Move? || a.Cancel?)
    ensures Lawful(s, a.i, StepOf(s, a))
  {
    var c := s.clients[a.i];
    if a.Move? {
      SharesNonneg(s);
      SendingWaits(c, a.good, s.words);
      hide Accounts, Behave;
      BehaveIsLawful(c, a.good, s.words);
    } else {
      GiveUpPays(c);
    }
  }

  lemma BehaveIsLawful(c: Client, good: bool, w: Words)
    requires WellFormed(c) && (Drains(w) ==> Busy(c) <= 1)
    ensures var r := Behave(c, good, w);
      PaysItsWay(c, r) && SettlesItsTrigger(c, r, w) && WellFormed(r.next)
  {
    assert c.pc == Dropping && c.held ==> Busy(c) > 1;
    BehavePays(c, good, w);
    BehaveTriggers(c, good, w);
    BehaveKeepsShape(c, good, w);
    BehaveKeepsCounted(c, good, w);
    hide Behave, PaysItsWay, SettlesItsTrigger, Shape, HoldShape, Counted;
  }

  lemma SendingWaits(c: Client, good: bool, w: Words)
    ensures Behave(c, good, w).effect == Sends ==> c.pc == Waiting
  {
  }

  // ----- every step keeps the invariant

  lemma AccountsKept(s: State, i: nat, r: Step)
    requires Accounts(s) && i < |s.clients| && Lawful(s, i, r)
    ensures Accounts(Apply(s, i, r))
  {
    hide WellFormed, Slot, Busy, TempFile, Child, Spawner, Trigger;
    SumUpdate(Slot, s.clients, i, r.next);
    SumUpdate(Busy, s.clients, i, r.next);
    SumUpdate(TempFile, s.clients, i, r.next);
    SumUpdate(Child, s.clients, i, r.next);
  }

  lemma SingleFlightKept(s: State, i: nat, r: Step)
    requires SingleFlight(s) && i < |s.clients| && Sum(Spawner, s.clients) >= Spawner(s.clients[i]) >= 0
    requires Spawner(r.next) - Spawner(s.clients[i]) == Delta(r.effect, WinsCas, Spawns)
    requires r.effect == WinsCas ==> !s.words.scavenging
    ensures SingleFlight(Apply(s, i, r))
  {
    hide Spawner;
    SumUpdate(Spawner, s.clients, i, r.next);
  }

  lemma BalancedKept(s: State, i: nat, r: Step)
    requires SingleFlight(s) && Balanced(s) && i < |s.clients| && Sum(Spawner, s.clients) >= 0
    requires Spawner(r.next) - Spawner(s.clients[i]) == Delta(r.effect, WinsCas, Spawns)
    requires SettlesItsTrigger(s.clients[i], r, s.words)
    ensures Balanced(Apply(s, i, r))
  {
    hide Spawner, Trigger;
    SumUpdate(Spawner, s.clients, i, r.next);
    SumUpdate(Trigger, s.clients, i, r.next);
    hide Sum;
  }

  lemma AlternatesKept(s: State, i: nat, r: Step)
    requires Alternates(s) && i < |s.clients| && s.words.active >= 0
    requires r.effect == Lowers ==> s.words.active > 0
    requires r.next.counted && !s.clients[i].counted ==> r.effect == Raises
    ensures Alternates(Apply(s, i, r))
  {
  }

  lemma StepKeeps(s: State, a: Action)
    requires Inv(s) && Enabled(s, a)
    ensures Inv(Next(s, a))
  {
    SharesNonneg(s);
    if a.Move? || a.Cancel? {
      StepsAreLawful(s, a);
      LawfulStepKeeps(s, a.i, StepOf(s, a));
      hide Inv, Behave, GiveUp, Apply;
    }
  }

  lemma LawfulStepKeeps(s: State, i: nat, r: Step)
    requires Inv(s) && i < |s.clients| && Lawful(s, i, r)
    ensures Inv(Apply(s, i, r))
  {
    SharesNonneg(s);
    LowersFromBusy(s, i, r);
    SumAtLeast(Spawner, s.clients, i);
    hide WellFormed, Slot, Busy, TempFile, Child, Trigger, Sum, Apply;
    AccountsKept(s, i, r);
    SingleFlightKept(s, i, r);
    BalancedKept(s, i, r);
    AlternatesKept(s, i, r);
    hide Spawner, Lawful, Accounts, SingleFlight, Balanced, Alternates;
  }

  lemma LowersFromBusy(s: State, i: nat, r: Step)
    requires Accounts(s) && i < |s.clients| && PaysItsWay(s.clients[i], r)
    ensures r.effect == Lowers ==> s.words.active > 0
  {
    SharesNonneg(s);
    assert Busy(r.next) >= 0;
    hide WellFormed, Slot, Busy, TempFile, Child, Spawner, Trigger, Sum;
  }

  lemma {:induction false} RunKeepsFrom(states: seq<State>, actions: seq<Action>, k: nat)
    requires IsRun(states, actions) && Inv(states[0]) && k < |states|
    ensures Inv(states[k])
  {
    if k > 0 {
      RunKeepsFrom(states, actions, k - 1);
      hide Inv, Next, Enabled;
      assert StepAt(states, actions, k - 1);
      StepKeeps(states[k - 1], actions[k - 1]);
    }
  }

  lemma RunKeeps(states: seq<State>, actions: seq<Action>, k: nat)
    requires IsRun(states, actions) && Init(states[0]) && k < |states|
    ensures Inv(states[k])
  {
    InitKeeps(states[0]);
    RunKeepsFrom(states, actions, k);
  }
}
