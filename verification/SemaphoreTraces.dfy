/** Runs that show where the literal code departs from its intent. Each lemma extends the run of
    the one before. Callers 1 and 2 acquire, caller 3 closes; the semaphore has one token. */
module SemaphoreTraces {
  import opened Common
  import opened Semaphore
  import opened SemaphoreProtocol
  import opened SemaphoreSafety

  ghost predicate Reaches(s: State) {
    exists es :: Exec(Init(1), es) == Some(s)
  }

  lemma Then(s: State, e: Event, s': State)
    requires Reaches(s) && Enabled(s, e) && Apply(s, e) == s'
    ensures Reaches(s')
  {
    var es :| Exec(Init(1), es) == Some(s);
    ExecConcat(Init(1), es, [e]);
    ExecCons(s, e, []);
    assert [e] + [] == [e];
    assert Exec(Init(1), es + [e]) == Some(s');
  }

  function At(f: Fields, mu: Option<Caller>, pcs: map<Caller, Pc>, done: set<Caller>, owners: seq<Caller>,
              grants: seq<Chan>, spurious: nat, closer: Option<Caller>): State {
    State(f, mu, pcs, done, owners, grants, spurious, closer, NoFault, 1)
  }

  /** Caller 1 holds the token, caller 2 waits on channel 0. */
  const ONE_WAITS := At(Fields(1, 1, [0], false, {}), None, map[1 := Holding, 2 := Waiting(0, false)],
                        {}, [2], [], 0, None)

  lemma OneWaits()
    ensures Reaches(ONE_WAITS)
  {
    assert Exec(Init(1), []) == Some(Init(1));
    var s := At(Fields(1, 1, [], false, {}), None, map[1 := Holding], {}, [], [], 0, None);
    Then(Init(1), CallAcquire(1), s);
    Then(s, CallAcquire(2), ONE_WAITS);
  }

  // ---- A wakeup with Close's error and a done context ----------------------------------------

  /** Close woke caller 2 with the error and waits on channel 1 for the token of caller 1. */
  const CLOSER_WAITS := At(Fields(1, 1, [1], true, {}), None,
                           map[1 := Holding, 2 := Woken(true, false), 3 := Waiting(1, true)],
                           {}, [2, 3], [], 0, Some(3))

  lemma CloserWaits()
    ensures Reaches(CLOSER_WAITS)
  {
    OneWaits();
    var a := ONE_WAITS.(mu := Some(3), closer := Some(3),
                        pcs := map[1 := Holding, 2 := Waiting(0, false), 3 := Sending([0])]);
    Then(ONE_WAITS, CallClose(3), a);
    var b := a.(pcs := map[1 := Holding, 2 := Woken(true, false), 3 := Sending([])]);
    assert [0][1..] == [];
    Then(a, SendError(3, 2), b);
    CloserQueues(b);
  }

  lemma CloserQueues(b: State)
    requires Reaches(b)
    requires b == ONE_WAITS.(mu := Some(3), closer := Some(3),
                             pcs := map[1 := Holding, 2 := Woken(true, false), 3 := Sending([])])
    ensures Reaches(CLOSER_WAITS)
  {
    Then(b, FinishClose(3), CLOSER_WAITS);
  }

  /** Caller 2 gave back a token it never had. */
  const SPURIOUS := At(Fields(1, 1, [], true, {1}), None, map[1 := Holding, 2 := Idle, 3 := Waiting(1, true)],
                       {2}, [2, 3], [1], 1, Some(3))

  lemma Spurious()
    ensures Reaches(SPURIOUS)
  {
    CloserWaits();
    var a := CLOSER_WAITS.(done := {2});
    Then(CLOSER_WAITS, Cancel(2), a);
    var b := a.(pcs := map[1 := Holding, 2 := GivingBack(true, false), 3 := Waiting(1, true)]);
    Then(a, Inspect(2), b);
    SpuriousRelease(b);
  }

  lemma SpuriousRelease(b: State)
    requires Reaches(b)
    requires b == CLOSER_WAITS.(done := {2}, pcs := map[1 := Holding, 2 := GivingBack(true, false), 3 := Waiting(1, true)])
    ensures Reaches(SPURIOUS)
  {
    Then(b, GiveBack(2), SPURIOUS);
  }

  /** Close returns nil although caller 1 still holds its token: the statement of DrainedExactly
      with one spurious release. */
  lemma CloseReturnsWithTokenOutstanding() returns (s: State)
    ensures Reaches(s) && s.spurious == 1 && !Conserved(s)
    ensures PcOf(s, 3).Drained? && PcOf(s, 1).Holding?
  {
    Spurious();
    var a := SPURIOUS.(pcs := map[1 := Holding, 2 := Idle, 3 := Woken(false, true)], f := Fields(1, 1, [], true, {}));
    Then(SPURIOUS, TakeReady(3), a);
    s := a.(pcs := map[1 := Holding, 2 := Idle, 3 := Drained]);
    Then(a, Inspect(3), s);
    assert {1, 3} <= TokenCallers(s.pcs);
    assert |TokenCallers(s.pcs)| == |TokenCallers(s.pcs) - {1, 3}| + 2;
  }

  /** Caller 3 gave up on draining before caller 2 looked at its context. */
  const CLOSER_GONE := At(Fields(1, 1, [], true, {}), None, map[1 := Holding, 2 := Woken(true, false), 3 := Idle],
                          {3}, [2, 3], [], 0, Some(3))

  lemma CloserGone()
    ensures Reaches(CLOSER_GONE)
  {
    CloserWaits();
    var a := CLOSER_WAITS.(done := {3});
    Then(CLOSER_WAITS, Cancel(3), a);
    var b := a.(pcs := map[1 := Holding, 2 := Woken(true, false), 3 := Leaving(1, true)]);
    Then(a, TakeDone(3), b);
    assert Without([1], 1) == [];
    Then(b, Leave(3), CLOSER_GONE);
  }

  const GIVING_BACK := CLOSER_GONE.(done := {2, 3}, pcs := map[1 := Holding, 2 := GivingBack(true, false), 3 := Idle])

  lemma ReachGivingBack()
    ensures Reaches(GIVING_BACK)
  {
    CloserGone();
    var a := CLOSER_GONE.(done := {2, 3});
    Then(CLOSER_GONE, Cancel(2), a);
    Then(a, Inspect(2), GIVING_BACK);
  }

  /** The rightful Release of caller 1 panics. */
  lemma RightfulReleasePanics() returns (s: State)
    ensures Reaches(s) && PcOf(s, 1).Holding? && Enabled(s, CallRelease(1))
    ensures Apply(s, CallRelease(1)).fault == Panicked
  {
    ReachGivingBack();
    s := GIVING_BACK.(pcs := map[1 := Holding, 2 := Idle, 3 := Idle], spurious := 1, f := Fields(1, 0, [], true, {}));
    Then(GIVING_BACK, GiveBack(2), s);
  }

  // ---- A grant that is withdrawn after a spurious release -------------------------------------

  /** Caller 1 released; caller 2 was granted the token but left; caller 4 waits on channel 1. */
  const GRANT_LEFT := At(Fields(1, 1, [1], false, {0}), None, map[1 := Idle, 2 := Leaving(0, false), 4 := Waiting(1, false)],
                         {2}, [2, 4], [0], 0, None)

  const TWO_WAIT := At(Fields(1, 1, [0, 1], false, {}), None,
                       map[1 := Holding, 2 := Waiting(0, false), 4 := Waiting(1, false)], {}, [2, 4], [], 0, None)

  lemma TwoWait()
    ensures Reaches(TWO_WAIT)
  {
    OneWaits();
    assert [0] + [1] == [0, 1];
    Then(ONE_WAITS, CallAcquire(4), TWO_WAIT);
  }

  lemma GrantLeft()
    ensures Reaches(GRANT_LEFT)
  {
    TwoWait();
    var a := TWO_WAIT.(done := {2});
    Then(TWO_WAIT, Cancel(2), a);
    var b := a.(pcs := map[1 := Holding, 2 := Leaving(0, false), 4 := Waiting(1, false)]);
    Then(a, TakeDone(2), b);
    GrantToLeaver(b);
  }

  lemma GrantToLeaver(b: State)
    requires Reaches(b)
    requires b == TWO_WAIT.(done := {2}, pcs := map[1 := Holding, 2 := Leaving(0, false), 4 := Waiting(1, false)])
    ensures Reaches(GRANT_LEFT)
  {
    assert [0, 1][1..] == [1];
    Then(b, CallRelease(1), GRANT_LEFT);
  }

  /** Close, with a context that is done already, woke caller 4 with the error. */
  const GRANT_LEFT_CLOSED := At(Fields(1, 1, [], true, {0}), None,
                                map[1 := Idle, 2 := Leaving(0, false), 3 := Idle, 4 := Woken(true, false)],
                                {2, 3, 4}, [2, 4], [0], 0, Some(3))

  lemma GrantLeftClosed()
    ensures Reaches(GRANT_LEFT_CLOSED)
  {
    GrantLeft();
    var a := GRANT_LEFT.(mu := Some(3), closer := Some(3),
                         pcs := map[1 := Idle, 2 := Leaving(0, false), 3 := Sending([1]), 4 := Waiting(1, false)]);
    Then(GRANT_LEFT, CallClose(3), a);
    var b := a.(pcs := map[1 := Idle, 2 := Leaving(0, false), 3 := Sending([]), 4 := Woken(true, false)]);
    assert [1][1..] == [];
    Then(a, SendError(3, 4), b);
    GrantLeftFinish(b);
  }

  lemma GrantLeftFinish(b: State)
    requires Reaches(b)
    requires b == GRANT_LEFT.(mu := Some(3), closer := Some(3), pcs :=
                              map[1 := Idle, 2 := Leaving(0, false), 3 := Sending([]), 4 := Woken(true, false)])
    ensures Reaches(GRANT_LEFT_CLOSED)
  {
    var c := b.(done := {2, 3});
    Then(b, Cancel(3), c);
    var d := c.(done := {2, 3, 4});
    Then(c, Cancel(4), d);
    Then(d, FinishClose(3), GRANT_LEFT_CLOSED);
  }

  const GIVES_BACK := GRANT_LEFT_CLOSED.(
    pcs := map[1 := Idle, 2 := Leaving(0, false), 3 := Idle, 4 := GivingBack(true, false)])

  lemma GivesBack()
    ensures Reaches(GIVES_BACK)
  {
    GrantLeftClosed();
    Then(GRANT_LEFT_CLOSED, Inspect(4), GIVES_BACK);
  }

  /** The decrement of line 105, which is not guarded, wraps around. */
  lemma WithdrawalWrapsAround() returns (s: State)
    ensures Reaches(s) && Enabled(s, Leave(2))
    ensures Apply(s, Leave(2)).f.cur == UINT_MOD - 1
  {
    GivesBack();
    s := GRANT_LEFT_CLOSED.(pcs := map[1 := Idle, 2 := Leaving(0, false), 3 := Idle, 4 := Idle], spurious := 1,
                            f := Fields(1, 0, [], true, {0}));
    Then(GIVES_BACK, GiveBack(4), s);
  }

  // ---- Close blocks on a waiter that left ------------------------------------------------------

  /** Caller 2 took the done case before Close got the lock: Close waits at its send for caller 2,
      and caller 2 waits for `mu`, for ever. */
  lemma CloseDeadlocks() returns (s: State)
    ensures Reaches(s) && s.mu == Some(3) && PcOf(s, 2).Leaving? && Stuck(s) && Hopeless(s)
  {
    OneWaits();
    var a := ONE_WAITS.(done := {2});
    Then(ONE_WAITS, Cancel(2), a);
    var b := a.(pcs := map[1 := Holding, 2 := Leaving(0, false)]);
    Then(a, TakeDone(2), b);
    s := b.(mu := Some(3), closer := Some(3),
            pcs := map[1 := Holding, 2 := Leaving(0, false), 3 := Sending([0])]);
    Then(b, CallClose(3), s);
    var es :| Exec(Init(1), es) == Some(s);
    StuckCharacterised(1, es);
  }

  // ---- Draining ------------------------------------------------------------------------------

  /** While Close drains, the counter can exceed the shrunken size. */
  lemma CounterExceedsSize() returns (es: seq<Event>, s: State)
    ensures Exec(Init(2), es) == Some(s) && s.f.closed && s.f.cur > s.f.size
  {
    var s1 := Apply(Init(2), CallAcquire(1));
    var s2 := Apply(s1, CallAcquire(2));
    var s3 := Apply(s2, CallClose(3));
    s := Apply(s3, FinishClose(3));
    ExecCons(s3, FinishClose(3), []);
    ExecCons(s2, CallClose(3), [FinishClose(3)] + []);
    ExecCons(s1, CallAcquire(2), [CallClose(3)] + ([FinishClose(3)] + []));
    es := [CallAcquire(1)] + ([CallAcquire(2)] + ([CallClose(3)] + ([FinishClose(3)] + [])));
    ExecCons(Init(2), CallAcquire(1), es[1..]);
  }
}
