/** The words that all requests share, and the atomic operations on them. Both the
    interleaving model (Pool) and the sequential class (Engine) are built from these. */
module EngineWords {

  // workers is cap(sem), occupied is len(sem); active and scavenging are the two atomics.
  datatype Words = Words(workers: nat, scavengeOnIdle: bool, occupied: int, active: int, scavenging: bool)

  const DEFAULT_WORKERS: nat := 4

  /** The pool never has zero slots, whatever the configuration says. */
  function WorkersOrDefault(configured: int): (n: nat)
    ensures n >= 1
    ensures if configured >= 1 then n == configured else n == 4
  {
    if configured <= 0 then DEFAULT_WORKERS else configured
  }

  function Fresh(configured: int, scavengeOnIdle: bool): Words {
    Words(WorkersOrDefault(configured), scavengeOnIdle, 0, 0, false)
  }

  predicate HasRoom(w: Words) {
    w.occupied < w.workers
  }

  function Send(w: Words): Words {
    w.(occupied := w.occupied + 1)
  }

  function Receive(w: Words): Words {
    w.(occupied := w.occupied - 1)
  }

  function Add(w: Words, delta: int): Words {
    w.(active := w.active + delta)
  }

  /** Is a decrement of active, applied to w, a drain edge? */
  predicate Drains(w: Words) {
    w.active == 1 && w.scavengeOnIdle
  }

  function SetScavenging(w: Words, value: bool): Words {
    w.(scavenging := value)
  }
}
