/** Runs that refute two tempting claims about the scavenger, and one that shows the
    counters really do leave their steady-state bounds between two atomic steps. */
module PoolExamples {
  import opened EngineWords
  import opened Pool
  import opened PoolRuns

  // ----- building runs

  datatype Run = Run(states: seq<State>, actions: seq<Action>)

  ghost predicate Valid(r: Run) {
    IsRun(r.states, r.actions)
  }

  function Last(r: Run): State
    requires |r.states| > 0
  {
    r.states[|r.states| - 1]
  }

  function Start(kinds: seq<Kind>): Run {
    Run([InitState(kinds, 1, true)], [])
  }

  function Extend(r: Run, a: Action): Run
    requires |r.states| > 0 && Enabled(Last(r), a)
  {
    Run(r.states + [Next(Last(r), a)], r.actions + [a])
  }

  lemma ExtendValid(r: Run, a: Action)
    requires Valid(r) && Enabled(Last(r), a)
    ensures Valid(Extend(r, a))
  {
    var e := Extend(r, a);
    forall k | 0 <= k < |e.actions|
      ensures StepAt(e.states, e.actions, k)
    {
      if k < |r.actions| {
        assert StepAt(r.states, r.actions, k);
      }
      hide Enabled, Next;
    }
  }

  /** A Probe whose ffprobe does not start, alone in the pool, up to its drain edge. */
  lemma FailingProbeDrains(r: Run, i: nat) returns (e: Run)
    requires Valid(r) && i < |Last(r).clients| && Last(r).clients[i] == NewClient(Probe)
    requires HasRoom(Last(r).words) && Last(r).words.occupied == 0
    requires Last(r).words.active == 0 && Last(r).words.scavengeOnIdle
    ensures Valid(e) && r.states <= e.states && r.actions <= e.actions
    ensures |e.actions| == |r.actions| + 5
    ensures Last(e) == Last(r).(
      clients := Last(r).clients[i := NewClient(Probe).(pc := Firing, counted := true)],
      ledger := Last(r).ledger.(
        drains := Last(r).ledger.drains + 1, busyPeriods := Last(r).ledger.busyPeriods + 1))
    ensures DrainStep(e.states, |e.actions| - 1)
  {
    e := r;
    var c := NewClient(Probe);
    ExtendValid(e, Move(i, true));
    e := Extend(e, Move(i, true));
    assert Last(e).clients[i] == c.(pc := Admitted);
    ExtendValid(e, Move(i, true));
    e := Extend(e, Move(i, true));
    assert Last(e).clients[i] == c.(pc := Working(Launch(Metadata)), counted := true);
    ExtendValid(e, Move(i, false));
    e := Extend(e, Move(i, false));
    assert Last(e).clients[i] == c.(pc := Leaving, counted := true);
    ExtendValid(e, Move(i, true));
    e := Extend(e, Move(i, true));
    assert Last(e).clients[i] == c.(pc := Dropping, counted := true);
    ExtendValid(e, Move(i, true));
    e := Extend(e, Move(i, true));
    assert Last(e).clients == Last(r).clients[i := c.(pc := Firing, counted := true)];
  }

  // ----- refuted: "every drain is followed by a call of FreeOSMemory"

  /** The second drain meets a scavenger that has already reclaimed but not yet cleared its
      flag; its trigger is dropped and nothing is reclaimed afterwards. */
  lemma DrainWithoutLaterReclaim() returns (r: Run, k: nat)
    ensures Valid(r) && Init(r.states[0]) && Settled(Last(r))
    ensures k < |r.actions| && DrainStep(r.states, k)
    ensures forall m :: k < m < |r.actions| ==> r.actions[m] != Reclaim
  {
    r := Start([Probe, Probe]);
    assert Init(r.states[0]);
    assert r.states[0].clients == [NewClient(Probe), NewClient(Probe)];
    r := FailingProbeDrains(r, 0);
    ExtendValid(r, Move(0, true));
    r := Extend(r, Move(0, true));
    ExtendValid(r, Move(0, true));
    r := Extend(r, Move(0, true));
    ExtendValid(r, Reclaim);
    r := Extend(r, Reclaim);
    assert Last(r).clients[1] == NewClient(Probe) && Last(r).storing == 1 && Last(r).words.scavenging;
    r := FailingProbeDrains(r, 1);
    k := |r.actions| - 1;
    r := DropAndStore(r, 1);
  }

  lemma DropAndStore(r: Run, i: nat) returns (e: Run)
    requires Valid(r) && |Last(r).clients| == 2 && i < 2
    requires Last(r).clients[i] == NewClient(Probe).(pc := Firing, counted := true)
    requires Last(r).clients[1 - i].pc == Finished
    requires Last(r).words.scavenging && Last(r).reclaiming == 0 && Last(r).storing == 1
    ensures Valid(e) && Settled(Last(e))
    ensures r.states <= e.states && e.actions == r.actions + [Move(i, true), Store]
  {
    ExtendValid(r, Move(i, true));
    e := Extend(r, Move(i, true));
    ExtendValid(e, Store);
    e := Extend(e, Store);
  }

  // ----- refuted: "no scavenge starts while a Hold is out"

  /** The Hold begins between another request's decrement to zero and its CAS. */
  lemma ScavengeStartsWhileHeld() returns (r: Run)
    ensures Valid(r) && Init(r.states[0]) && |r.actions| > 0
    ensures var before, after := r.states[|r.actions| - 1], Last(r);
      && before.ledger.started < after.ledger.started
      && exists i :: 0 <= i < |before.clients| && before.clients[i].held
  {
    r := Start([Probe, Transcribe]);
    assert Init(r.states[0]);
    assert r.states[0].clients == [NewClient(Probe), NewClient(Transcribe)];
    r := FailingProbeDrains(r, 0);
    ExtendValid(r, Move(1, true));
    r := Extend(r, Move(1, true));
    assert Last(r).clients[1].held;
    ExtendValid(r, Move(0, true));
    r := Extend(r, Move(0, true));
  }

  // ----- active is not bounded by workers, nor occupancy by active

  /** One worker: a Hold and a slot together make active two; and a slot just sent into is
      occupied before it is counted. */
  lemma CountersLeaveTheirSteadyBounds() returns (r: Run)
    ensures Valid(r) && Init(r.states[0]) && |r.states| >= 2
    ensures r.states[1].words.occupied > r.states[1].words.active
    ensures Last(r).words.active > Last(r).words.workers
  {
    r := Start([Probe, Transcribe]);
    assert Init(r.states[0]);
    assert r.states[0].clients == [NewClient(Probe), NewClient(Transcribe)];
    ExtendValid(r, Move(0, true));
    r := Extend(r, Move(0, true));
    var slotted := Last(r);
    assert slotted.words == Words(1, true, 1, 0, false) && slotted.clients[1] == NewClient(Transcribe);
    ExtendValid(r, Move(0, true));
    r := Extend(r, Move(0, true));
    assert Last(r).words == Words(1, true, 1, 1, false) && Last(r).clients[1] == NewClient(Transcribe);
    ExtendValid(r, Move(1, true));
    r := Extend(r, Move(1, true));
    assert Last(r).words == Words(1, true, 1, 2, false);
    assert r.states[1] == slotted;
  }
}
