/** The Engine as an object: acquire, releaseWorker, Hold and the scavenger as one request
    sees them when nobody interrupts. EngineInPool relates them to the pool's steps. */
module Engines {
  import opened Wrappers
  import opened Errors
  import opened EngineWords

  /** The words after endActive. */
  function Ended(w: Words): Words {
    if Drains(w) then SetScavenging(Add(w, -1), true) else Add(w, -1)
  }

  /** Does endActive, called on w, start a scavenger? */
  predicate StartsScavenge(w: Words) {
    Drains(w) && !w.scavenging
  }

  function Entered(w: Words): Words {
    Add(Send(w), 1)
  }

  class Engine {
    const workers: nat
    const scavengeOnIdle: bool
    var occupied: int
    var active: int
    var scavenging: bool
    var started: nat     // scavenger goroutines started so far

    function Shared(): Words
      reads this
    {
      Words(workers, scavengeOnIdle, occupied, active, scavenging)
    }

    constructor (configured: int, scavengeOnIdle: bool)
      ensures Shared() == Fresh(configured, scavengeOnIdle) && started == 0
    {
      workers := if configured <= 0 then DEFAULT_WORKERS else configured;
      this.scavengeOnIdle := scavengeOnIdle;
      occupied, active, scavenging, started := 0, 0, false, 0;
    }

    /** gaveUp says how the select was resolved; it picks the send only when there is room. */
    method Acquire(gaveUp: Option<Cause>) returns (err: Option<Err>)
      requires gaveUp.None? ==> HasRoom(Shared())
      modifies this
      ensures started == old(started)
      ensures gaveUp.None? ==> err.None? && Shared() == Entered(old(Shared()))
      ensures gaveUp.Some? ==> err == Some(ContextErr(gaveUp.value)) && Shared() == old(Shared())
    {
      match gaveUp {
        case None =>
          occupied := occupied + 1;
          active := active + 1;
          return None;
        case Some(cause) =>
          return Some(ContextErr(cause));
      }
    }

    method ReleaseWorker()
      modifies this
      ensures Shared() == Ended(Receive(old(Shared())))
      ensures started == old(started) + if StartsScavenge(Receive(old(Shared()))) then 1 else 0
    {
      occupied := occupied - 1;
      EndActive();
    }

    method EndActive()
      modifies this
      ensures Shared() == Ended(old(Shared()))
      ensures started == old(started) + if StartsScavenge(old(Shared())) then 1 else 0
    {
      active := active - 1;
      if active == 0 && scavengeOnIdle {
        Scavenge();
      }
    }

    method Scavenge()
      modifies this
      ensures Shared() == SetScavenging(old(Shared()), true)
      ensures started == old(started) + if old(scavenging) then 0 else 1
    {
      if scavenging {
        return;
      }
      scavenging := true;
      started := started + 1;
    }

    method Hold() returns (h: Release)
      modifies this
      ensures fresh(h) && h.engine == this && !h.done
      ensures Shared() == Add(old(Shared()), 1) && started == old(started)
    {
      active := active + 1;
      h := new Release(this);
    }
  }

  /** The release function Hold returns, with its sync.Once. */
  class Release {
    const engine: Engine
    var done: bool

    constructor (engine: Engine)
      ensures this.engine == engine && !done
    {
      this.engine := engine;
      done := false;
    }

    method Call()
      modifies this, engine
      ensures done
      ensures old(done) ==> engine.Shared() == old(engine.Shared()) && engine.started == old(engine.started)
      ensures !old(done) ==>
        && engine.Shared() == Ended(old(engine.Shared()))
        && engine.started == old(engine.started) + if StartsScavenge(old(engine.Shared())) then 1 else 0
    {
      if !done {
        done := true;
        engine.EndActive();
      }
    }

    /** However often release is called, the count drops once. */
    method CallTimes(n: nat)
      requires n >= 1 && !done
      modifies this, engine
      ensures done && engine.Shared() == Ended(old(engine.Shared()))
    {
      Call();
      for i := 1 to n
        invariant done && engine.Shared() == Ended(old(engine.Shared()))
      {
        Call();
      }
    }
  }

  // ----- whole operations

  /** The words after one slot was taken and given back. */
  function AroundSlot(w: Words): Words {
    Ended(Receive(Entered(w)))
  }

  /** Taking a slot and giving it back restores both counters; the scavenging flag comes up
      exactly if the engine was idle before. */
  lemma SlotRoundTrip(w: Words)
    ensures var after := AroundSlot(w);
      && after.occupied == w.occupied && after.active == w.active
      && (after.scavenging <==> w.scavenging || (w.active == 0 && w.scavengeOnIdle))
      && (StartsScavenge(Receive(Entered(w))) <==> w.active == 0 && w.scavengeOnIdle && !w.scavenging)
  {
  }
}

/** The Engine's methods are the pool's steps, taken by one client without interruption. */
module EngineInPool {
  import opened EngineWords
  import opened Pool
  import opened PoolSafety
  import Engines

  /** n uninterrupted steps of client i lead from s to t. */
  ghost predicate Solo(s: State, i: nat, n: nat, t: State)
    decreases n
  {
    if n == 0 then s == t
    else Enabled(s, Move(i, true)) && Solo(Next(s, Move(i, true)), i, n - 1, t)
  }

  lemma AcquireIsTwoSteps(s: State, i: nat) returns (t: State)
    requires Inv(s) && i < |s.clients| && s.clients[i].pc == Waiting && HasRoom(s.words)
    ensures Solo(s, i, 2, t)
    ensures t.words == Engines.Entered(s.words)
    ensures |t.clients| == |s.clients| && t.clients[i].pc.Working?
  {
    var a := Next(s, Move(i, true));
    t := Next(a, Move(i, true));
    assert Solo(t, i, 0, t);
    assert Solo(a, i, 1, t);
  }

  /** releaseWorker: two steps without a drain, three when the trigger is dropped, four
      when it starts a scavenger. */
  lemma ReleaseIsPoolSteps(s: State, i: nat) returns (n: nat, t: State)
    requires Inv(s) && i < |s.clients| && s.clients[i].pc == Leaving
    ensures Solo(s, i, n, t) && 2 <= n <= 4
    ensures t.words == Engines.Ended(Receive(s.words))
    ensures |t.clients| == |s.clients|
    ensures t.clients[i].pc.Finished? || t.clients[i].pc.Calling? || t.clients[i].pc.HoldDropping?
    ensures t.reclaiming == s.reclaiming + if Engines.StartsScavenge(Receive(s.words)) then 1 else 0
  {
    SumAtLeastSlot(s, i);
    var a := Next(s, Move(i, true));
    var m := EndActiveIsPoolSteps(a, i);
    n, t := m.0 + 1, m.1;
  }

  lemma SumAtLeastSlot(s: State, i: nat)
    requires Accounts(s) && i < |s.clients|
    ensures Slot(s.clients[i]) <= s.words.occupied
  {
    SumAtLeast(Slot, s.clients, i);
  }

  /** Hold is the first step of a Transcribe. */
  lemma HoldIsPoolStep(s: State, i: nat) returns (t: State)
    requires Inv(s) && i < |s.clients| && s.clients[i].pc == Entering
    ensures Solo(s, i, 1, t)
    ensures t.words == Add(s.words, 1) && t.reclaiming == s.reclaiming
    ensures |t.clients| == |s.clients| && t.clients[i].held && t.clients[i].pc == Waiting
  {
    t := Next(s, Move(i, true));
    assert Solo(t, i, 0, t);
  }

  /** The release of a Hold, called for the first time, is its last steps: one without a
      drain, two when the trigger is dropped, three when it starts a scavenger. */
  lemma ReleaseOfHoldIsPoolSteps(s: State, i: nat) returns (n: nat, t: State)
    requires Inv(s) && i < |s.clients| && s.clients[i].pc == HoldDropping
    ensures Solo(s, i, n, t) && 1 <= n <= 3
    ensures t.words == Engines.Ended(s.words)
    ensures |t.clients| == |s.clients| && t.clients[i].pc == Finished && !t.clients[i].held
    ensures t.reclaiming == s.reclaiming + if Engines.StartsScavenge(s.words) then 1 else 0
  {
    var r := EndActiveIsPoolSteps(s, i);
    n, t := r.0, r.1;
  }

  /** Where a request goes on when the decrement it is about to make has been dealt with. */
  function AfterEnd(c: Client): Client {
    if c.pc == HoldDropping then c.(held := false, pc := Finished) else AfterRelease(c)
  }

  lemma EndActiveIsPoolSteps(s: State, i: nat) returns (r: (nat, State))
    requires i < |s.clients| && (s.clients[i].pc == Dropping || s.clients[i].pc == HoldDropping)
    ensures Solo(s, i, r.0, r.1) && 1 <= r.0 <= 3
    ensures r.1.words == Engines.Ended(s.words)
    ensures r.1.clients == s.clients[i := AfterEnd(s.clients[i])]
    ensures r.1.reclaiming == s.reclaiming + if Engines.StartsScavenge(s.words) then 1 else 0
  {
    var a := Next(s, Move(i, true));
    if !Drains(s.words) {
      assert Solo(a, i, 0, a);
      r := (1, a);
    } else {
      var m := ScavengeIsPoolSteps(a, i);
      r := (m.0 + 1, m.1);
    }
  }

  lemma ScavengeIsPoolSteps(s: State, i: nat) returns (r: (nat, State))
    requires i < |s.clients| && s.clients[i].pc == Firing
    ensures Solo(s, i, r.0, r.1) && 1 <= r.0 <= 2
    ensures r.1.words == SetScavenging(s.words, true)
    ensures r.1.clients == s.clients[i := AfterRelease(s.clients[i])]
    ensures r.1.reclaiming == s.reclaiming + if s.words.scavenging then 0 else 1
  {
    var a := Next(s, Move(i, true));
    if s.words.scavenging {
      assert Solo(a, i, 0, a);
      r := (1, a);
    } else {
      var b := Next(a, Move(i, true));
      assert Solo(b, i, 0, b);
      assert Solo(a, i, 1, b);
      r := (2, b);
    }
  }
}
