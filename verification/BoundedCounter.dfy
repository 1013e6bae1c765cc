/** A semaphore without queue, channels and mutex: an atomic bounded counter with a closed flag.
    SemaphoreRefinement proves that the real one implements it; the session pools build on it. */
module BoundedCounter {

  /** `calls` are the calls of Acquire under way, `holders` those that returned nil and were not
      released yet; `drained` says that Close returned nil. */
  datatype Counter = Counter(limit: nat, holders: set<nat>, calls: set<nat>, closed: bool, drained: bool)

  datatype Action =
    | Stutter
    | Begin(t: nat)
    | Fail(t: nat)
    | Take(t: nat)
    | Give(t: nat)
    | Shut
    | Drain

  predicate Can(c: Counter, a: Action) {
    match a
    case Stutter => true
    case Begin(t) => !c.closed && t !in c.calls + c.holders
    case Fail(t) => t in c.calls
    case Take(t) => (t in c.calls || (!c.closed && t !in c.holders)) && |c.holders| < c.limit && !c.drained
    case Give(t) => t in c.holders
    case Shut => !c.closed
    case Drain => c.closed && c.holders == {}
  }

  function Do(c: Counter, a: Action): Counter
    requires Can(c, a)
  {
    match a
    case Stutter => c
    case Begin(t) => c.(calls := c.calls + {t})
    case Fail(t) => c.(calls := c.calls - {t})
    case Take(t) => c.(calls := c.calls - {t}, holders := c.holders + {t})
    case Give(t) => c.(holders := c.holders - {t})
    case Shut => c.(closed := true)
    case Drain => c.(drained := true)
  }

  /** What the counter promises: never more holders than its limit, none once it is drained, and
      after it is closed no call begins. */
  ghost predicate Promise(c: Counter) {
    |c.holders| <= c.limit && (c.drained ==> c.closed && c.holders == {})
  }

  lemma PromiseKept(c: Counter, a: Action)
    requires Promise(c) && Can(c, a)
    ensures Promise(Do(c, a))
    ensures c.closed ==> Do(c, a).closed && Do(c, a).calls <= c.calls
    ensures c.drained ==> Do(c, a).drained
  {
  }
}
