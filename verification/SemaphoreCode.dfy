/** Acquire, Release and Close of the semaphore from their first statement to their last, while other
    callers run wherever the code blocks or is between two sections: every execution is a run of
    SemaphoreProtocol. The fields under `mu` are those of a SemaphoreCloser, whose methods perform
    the critical sections.

    `others` is what the other callers do, and when contexts end. A method returns without a result
    only if somebody panicked, or if the others have stopped and its caller cannot take a step. */
module SemaphoreCode {
  import opened Common
  import opened Semaphore
  import opened SemaphoreProtocol
  import SS = SemaphoreSafety

  type Others = seq<seq<Event>>

  /** What Acquire and Close return: nil, the semaphore's own error, or that of the context. */
  datatype Result = Success | ClosedError | ContextError

  /** The event is another caller's, the end of a context, or a step of the call t is in; t neither
      starts a call nor releases its token. */
  predicate Within(t: Caller, e: Event) {
    e.t == t ==> !e.Renew? && !e.CallAcquire? && !e.CallClose? && !e.CallRelease?
  }

  ghost predicate Leads(s: State, t: Caller, s': State) {
    exists es :: Run(s, t, es, s')
  }

  ghost predicate Run(s: State, t: Caller, es: seq<Event>, s': State) {
    Exec(s, es) == Some(s') && forall e :: e in es ==> Within(t, e)
  }

  /** The run from s to s' includes this call, and no other one by its caller. */
  ghost predicate Makes(s: State, call: Event, s': State) {
    exists mid :: Before(s, call, mid) && Leads(Apply(mid, call), call.t, s')
  }

  ghost predicate Before(s: State, call: Event, mid: State) {
    Leads(s, call.t, mid) && Enabled(mid, call)
  }

  /** The run from s to s' ends with this call. */
  ghost predicate EndsWith(s: State, call: Event, s': State) {
    exists mid :: Before(s, call, mid) && s' == Apply(mid, call)
  }

  /** The run from s to s' ends with this call, which returned at once and changed nothing. */
  ghost predicate EndsRefused(s: State, call: Event, s': State) {
    exists mid :: Before(s, call, mid) && s' == mid.(pcs := mid.pcs[call.t := Idle])
  }

  /** Some run of callers of a new semaphore ends here. */
  ghost predicate Reached(s: State) {
    s.limit >= 1 && exists es :: Exec(Init(s.limit), es) == Some(s)
  }

  lemma Stays(s: State, t: Caller)
    ensures Leads(s, t, s)
  {
    assert Run(s, t, [], s);
  }

  lemma Continues(s: State, t: Caller, s': State, s'': State)
    requires Leads(s, t, s') && Leads(s', t, s'')
    ensures Leads(s, t, s'')
  {
    var es, fs :| Run(s, t, es, s') && Run(s', t, fs, s'');
    SS.ExecConcat(s, es, fs);
    assert Run(s, t, es + fs, s'');
  }

  lemma OneStep(s: State, e: Event)
    requires Enabled(s, e)
    ensures Exec(s, [e]) == Some(Apply(s, e))
  {
    SS.ExecCons(s, e, []);
    assert [e] + [] == [e];
  }

  lemma ReachedStep(s: State, e: Event)
    requires Reached(s) && Enabled(s, e)
    ensures Reached(Apply(s, e)) && Apply(s, e).limit == s.limit
  {
    var es :| Exec(Init(s.limit), es) == Some(s);
    OneStep(s, e);
    SS.ExecConcat(Init(s.limit), es, [e]);
    LimitKept(s, e);
  }

  lemma Step(s0: State, t: Caller, s: State, e: Event)
    requires Leads(s0, t, s) && Reached(s) && Enabled(s, e) && Within(t, e)
    ensures Leads(s0, t, Apply(s, e)) && Reached(Apply(s, e)) && Apply(s, e).limit == s.limit
  {
    OneStep(s, e);
    assert Run(s, t, [e], Apply(s, e));
    Continues(s0, t, s, Apply(s, e));
    ReachedStep(s, e);
  }

  lemma LimitKept(s: State, e: Event)
    requires Enabled(s, e)
    ensures Apply(s, e).limit == s.limit
  {
  }

  lemma ReachedValid(s: State)
    requires Reached(s)
    ensures Valid(s)
  {
    var es :| Exec(Init(s.limit), es) == Some(s);
    SS.ExecValid(Init(s.limit), es);
  }

  lemma ReachedMutex(s: State)
    requires Reached(s)
    ensures MutexHeld(s)
  {
    ReachedValid(s);
  }

  /** What the others can do to a caller: Close, once it began, sends its error to one in the select. */
  predicate Nudged(s: State, s': State, t: Caller) {
    var pc, pc' := PcOf(s, t), PcOf(s', t);
    pc' == pc || (pc.Waiting? && pc' == Woken(true, pc.closer) && s'.closer.Some?)
  }

  lemma OthersNudge(s: State, e: Event, t: Caller)
    requires MutexHeld(s) && Enabled(s, e) && (e.t != t || e.Cancel?)
    ensures Nudged(s, Apply(s, e), t)
    ensures s.closer.Some? ==> Apply(s, e).closer.Some?
    ensures PcOf(s, t).Sending? && s.mu == Some(t) ==> Apply(s, e).mu == s.mu
  {
  }

  /** A closed semaphore has its closer, and a closer drains a closed semaphore. */
  lemma ClosedByCloser(s: State, t: Caller)
    requires Reached(s)
    ensures s.f.closed ==> s.closer.Some?
    ensures PcOf(s, t).Woken? && PcOf(s, t).closer ==> s.f.closed
  {
    ReachedValid(s);
  }

  /** Whoever is queued has not been granted its token. */
  lemma NotYetGranted(s: State, t: Caller)
    requires Reached(s)
    ensures PcOf(s, t).Waiting? && PcOf(s, t).ch in s.f.waiters ==> PcOf(s, t).ch !in s.f.granted
  {
    ReachedValid(s);
    assert PcOf(s, t).Waiting? && PcOf(s, t).ch in s.f.waiters ==> PcOf(s, t).ch in Members(s.f.waiters);
  }

  lemma FirstIsOwned(s: State, t: Caller)
    requires Reached(s) && s.mu == Some(t) && PcOf(s, t).Sending? && PcOf(s, t).rest != []
    ensures PcOf(s, t).rest[0] < |s.owners| && s.owners[PcOf(s, t).rest[0]] != t
  {
    ReachedValid(s);
    assert PcOf(s, t).rest[0] in Members(Live(s));
  }

  lemma DoneKept(s: State, t: Caller, es: seq<Event>)
    requires t in s.done && Exec(s, es).Some? && forall e :: e in es ==> Within(t, e)
    ensures t in Exec(s, es).value.done
    decreases |es|
  {
    if es == [] {
    } else {
      assert es[0] in es;
      DoneKept(Apply(s, es[0]), t, es[1..]);
    }
  }

  lemma {:induction false} ClosedKept(s: State, es: seq<Event>)
    requires s.f.closed && Exec(s, es).Some?
    ensures Exec(s, es).value.f.closed
    decreases |es|
  {
    if es == [] {
    } else {
      ClosingIsFinal(s, es[0]);
      ClosedKept(Apply(s, es[0]), es[1..]);
    }
  }

  lemma ClosingIsFinal(s: State, e: Event)
    requires Enabled(s, e)
    ensures s.f.closed ==> Apply(s, e).f.closed
  {
  }

  lemma StaysClosed(s: State, t: Caller, s': State)
    requires Leads(s, t, s')
    ensures s.f.closed ==> s'.f.closed
  {
    var es :| Run(s, t, es, s');
    if s.f.closed {
      ClosedKept(s, es);
    }
  }

  lemma ContextStaysDone(s: State, t: Caller, s': State)
    requires Leads(s, t, s')
    ensures t in s.done ==> t in s'.done
  {
    var es :| Run(s, t, es, s');
    if t in s.done {
      DoneKept(s, t, es);
    }
  }

  /** The caller that made the channel receives from it. */
  predicate Receiving(s: State, ch: Chan) {
    ch < |s.owners| && PcOf(s, s.owners[ch]).Waiting? && PcOf(s, s.owners[ch]).ch == ch
  }

  /** Inside a call, at a statement that blocks. */
  predicate Blocked(s: State, t: Caller) {
    match PcOf(s, t)
    case Waiting(ch, _) => t !in s.done && ch !in s.f.granted
    case Leaving(_, _) => s.mu.Some?
    case GivingBack(_, _) => s.mu.Some?
    case Sending(rest) => s.mu == Some(t) && rest != [] && !Receiving(s, rest[0])
    case _ => false
  }

  /** Where a call that returned r leaves its caller; `draining` tells Close from Acquire. */
  predicate Returned(s: State, t: Caller, r: Result, draining: bool) {
    match r
    case Success => if draining then PcOf(s, t).Drained? else PcOf(s, t).Holding?
    case ClosedError => PcOf(s, t).Idle? && s.closer.Some? && (draining ==> s.f.closed)
    case ContextError => PcOf(s, t).Idle? && t in s.done
  }

  /** How a call can end; None if it did not. */
  predicate Ended(s: State, t: Caller, r: Option<Result>, draining: bool) {
    if s.fault == Panicked then r.None?
    else if r.None? then Blocked(s, t)
    else Returned(s, t, r.value, draining)
  }

  /** A caller inside a call cannot take a step exactly if it is at a statement that blocks. */
  lemma BlockedExactly(s: State, t: Caller)
    requires Reached(s) && s.fault != Panicked
    requires !PcOf(s, t).Idle? && !PcOf(s, t).Holding? && !PcOf(s, t).Drained?
    ensures Blocked(s, t) <==> forall e: Event :: e.t == t && !e.Cancel? ==> !Enabled(s, e)
  {
    match PcOf(s, t)
    case Waiting(_, _) => assert !Blocked(s, t) ==> Enabled(s, TakeDone(t)) || Enabled(s, TakeReady(t));
    case Leaving(_, _) => assert !Blocked(s, t) ==> Enabled(s, Leave(t));
    case GivingBack(_, _) => assert !Blocked(s, t) ==> Enabled(s, GiveBack(t));
    case Woken(_, _) => assert Enabled(s, Inspect(t));
    case _ =>
      SenderBlocked(s, t);
  }

  lemma SenderBlocked(s: State, t: Caller)
    requires Reached(s) && s.fault != Panicked && PcOf(s, t).Sending?
    ensures Blocked(s, t) <==> forall e: Event :: e.t == t && !e.Cancel? ==> !Enabled(s, e)
  {
    ReachedValid(s);
    if PcOf(s, t).rest == [] {
      assert Enabled(s, FinishClose(t));
    } else {
      FirstIsOwned(s, t);
      SendBlocked(s, t);
    }
  }

  lemma SendBlocked(s: State, t: Caller)
    requires Channels(s) && s.fault != Panicked && s.mu == Some(t) && PcOf(s, t).Sending? && PcOf(s, t).rest != []
    requires PcOf(s, t).rest[0] < |s.owners|
    ensures Blocked(s, t) <==> forall e: Event :: e.t == t && !e.Cancel? ==> !Enabled(s, e)
  {
    SendExactly(s, t);
    OnlySends(s, t);
  }

  lemma OnlySends(s: State, t: Caller)
    requires PcOf(s, t).Sending? && PcOf(s, t).rest != []
    ensures forall e: Event :: e.t == t && !e.Cancel? && Enabled(s, e) ==> e == SendError(t, e.to)
  {
  }

  /** Only the caller that made the channel can receive the first error. */
  lemma SendExactly(s: State, t: Caller)
    requires Channels(s) && s.fault != Panicked && s.mu == Some(t) && PcOf(s, t).Sending? && PcOf(s, t).rest != []
    requires PcOf(s, t).rest[0] < |s.owners|
    ensures Receiving(s, PcOf(s, t).rest[0]) <==> exists to :: Enabled(s, SendError(t, to))
  {
    var ch := PcOf(s, t).rest[0];
    assert Receiving(s, ch) ==> Enabled(s, SendError(t, s.owners[ch]));
    forall to | Enabled(s, SendError(t, to))
      ensures s.owners[ch] == to
    {
      assert to in s.pcs && InQueue(s.pcs[to]) && s.pcs[to].ch == ch;
    }
  }

  class Callers {
    const sema: SemaphoreCloser
    const limit: uint
    var mu: Option<Caller>
    var pcs: map<Caller, Pc>   // the statement each caller has reached
    var done: set<Caller>      // the callers whose context has ended
    var owners: seq<Caller>
    var grants: seq<Chan>
    var spurious: nat
    var closer: Option<Caller>
    var fault: Fault

    function Now(): State
      reads this, sema
    {
      State(Fields(sema.size, sema.cur, sema.waiters, sema.closed, sema.granted),
            mu, pcs, done, owners, grants, spurious, closer, fault, limit)
    }

    constructor (limit: uint)
      requires limit >= 1
      ensures Now() == Init(limit) && Reached(Now()) && fresh(sema)
    {
      assert Exec(Init(limit), []) == Some(Init(limit));
      this.limit := limit;
      sema := new SemaphoreCloser(limit);
      mu, pcs, done, owners, grants, spurious, closer, fault := None, map[], {}, [], [], 0, None, NoFault;
    }

    method Become(s: State)
      requires s.limit == limit
      modifies this, sema
      ensures Now() == s
    {
      sema.size, sema.cur, sema.waiters, sema.closed, sema.granted := s.f.size, s.f.cur, s.f.waiters, s.f.closed, s.f.granted;
      mu, pcs, done, owners, grants := s.mu, s.pcs, s.done, s.owners, s.grants;
      spurious, closer, fault := s.spurious, s.closer, s.fault;
    }

    /** The others run; the context of t may end, but t does not move. */
    method Pause(t: Caller, others: Others) returns (rest: Others)
      requires Reached(Now())
      modifies this, sema
      ensures Reached(Now()) && Leads(old(Now()), t, Now()) && Nudged(old(Now()), Now(), t)
      ensures old(PcOf(Now(), t)).Sending? && old(mu) == Some(t) ==> mu == old(mu)
      ensures if others == [] then rest == [] else |rest| < |others|
    {
      Stays(Now(), t);
      if others == [] {
        return others;
      }
      for i := 0 to |others[0]|
        invariant Reached(Now()) && Leads(old(Now()), t, Now()) && Nudged(old(Now()), Now(), t)
        invariant old(PcOf(Now(), t)).Sending? && old(mu) == Some(t) ==> mu == old(mu)
      {
        var e := others[0][i];
        if Enabled(Now(), e) && (e.t != t || e.Cancel?) {
          Step(old(Now()), t, Now(), e);
          ReachedMutex(Now());
          OthersNudge(Now(), e, t);
          var s := Apply(Now(), e);
          Become(s);
        }
      }
      rest := others[1..];
    }

    /** s.mu.Lock(): free is false if somebody panicked, or the others have stopped and `mu` is still
        taken. */
    method Lock(t: Caller, others: Others) returns (free: bool, rest: Others)
      requires Reached(Now()) && !PcOf(Now(), t).Waiting?
      modifies this, sema
      ensures Reached(Now()) && Leads(old(Now()), t, Now()) && PcOf(Now(), t) == old(PcOf(Now(), t))
      ensures free <==> mu.None? && fault != Panicked
      ensures free || fault == Panicked || rest == []
      ensures others == [] ==> rest == [] && Now() == old(Now())
    {
      Stays(Now(), t);
      rest := others;
      while mu.Some? && rest != []
        invariant others == [] ==> rest == [] && Now() == old(Now())
        invariant Reached(Now()) && Leads(old(Now()), t, Now()) && PcOf(Now(), t) == old(PcOf(Now(), t))
        decreases |rest|
      {
        ghost var before := Now();
        rest := Pause(t, rest);
        Continues(old(Now()), t, before, Now());
      }
      free := mu.None? && fault != Panicked;
    }

    // ---- Sections ------------------------------------------------------------------------------------

    /** Where an attempt to take a token, which found the fields as `before`, leaves its caller. */
    method Settle(t: Caller, o: Outcome, draining: bool, before: Fields)
      modifies this
      ensures Now() == AfterAttempt(old(Now()).(f := before), t, draining, old(Now()).f, o)
    {
      grants := grants + NewGrants(before, Now().f);
      match o
      case Acquired => pcs := pcs[t := if draining then Drained else Holding];
      case Queued =>
        pcs := pcs[t := Waiting(|owners|, draining)];
        owners := owners + [t];
      case _ => pcs := pcs[t := Idle];
    }

    method EnterAcquire(t: Caller)
      requires Reached(Now()) && Enabled(Now(), CallAcquire(t))
      modifies this, sema
      ensures Now() == Apply(old(Now()), CallAcquire(t))
      ensures sema.closed == old(sema.closed)
      ensures old(sema.closed || t in done) ==> Now() == old(Now()).(pcs := old(pcs)[t := Idle])
      ensures !old(sema.closed || t in done) ==>
        if old(sema.cur < sema.size && sema.waiters == []) then
          PcOf(Now(), t).Holding? && sema.cur == old(sema.cur) + 1 && sema.waiters == []
        else
          PcOf(Now(), t).Waiting? && sema.cur == old(sema.cur) && sema.waiters == old(sema.waiters) + [PcOf(Now(), t).ch]
    {
      ReachedValid(Now());
      var before := Now().f;
      var o := sema.TryAcquire(t in done, |owners|);
      Settle(t, o, false, before);
    }

    method ReceiveGrant(t: Caller)
      requires Enabled(Now(), TakeReady(t))
      modifies this, sema
      ensures Now() == Apply(old(Now()), TakeReady(t))
    {
      var Waiting(ch, draining) := pcs[t];
      sema.granted := sema.granted - {ch};
      pcs := pcs[t := Woken(false, draining)];
    }

    /** Lines 117 to 124, up to the call of Release. */
    method CheckDone(t: Caller)
      requires Enabled(Now(), Inspect(t))
      modifies this
      ensures Now() == Apply(old(Now()), Inspect(t))
    {
      var Woken(failed, draining) := pcs[t];
      if t in done {
        pcs := pcs[t := GivingBack(failed, draining)];
      } else if failed {
        pcs := pcs[t := Idle];
      } else {
        pcs := pcs[t := if draining then Drained else Holding];
      }
    }

    /** Lines 100 to 115. */
    method LeaveQueue(t: Caller)
      requires Enabled(Now(), Leave(t))
      modifies this, sema
      ensures Now() == Apply(old(Now()), Leave(t))
    {
      var ch := pcs[t].ch;
      var before := Now().f;
      sema.WithdrawWaiter(ch);
      grants := grants + NewGrants(before, Now().f);
      pcs := pcs[t := Idle];
      if ch in before.granted && before.cur == 0 {
        fault := Wrapped;
      }
    }

    /** Release, called by its holder or at line 120. */
    method ReleaseOne(t: Caller)
      requires Enabled(Now(), CallRelease(t))
      modifies this, sema
      ensures Now() == AfterRelease(old(Now()), t)
    {
      var before := Now().f;
      var ok := sema.TryRelease();
      pcs := pcs[t := Idle];
      if ok {
        grants := grants + NewGrants(before, Now().f);
      } else {
        fault := Panicked;
      }
    }

    /** Lines 69 to 76, at the end of Close's loop. */
    method EndLoop(t: Caller)
      requires Enabled(Now(), FinishClose(t))
      modifies this, sema
      ensures Now() == Apply(old(Now()), FinishClose(t))
      ensures sema.closed && sema.size == 1 && mu.None? && done == old(done)
      ensures t in done ==> PcOf(Now(), t).Idle? && sema.cur == old(sema.cur) && sema.waiters == []
      ensures t !in done ==>
        if old(sema.cur) == 0 then PcOf(Now(), t).Drained? && sema.cur == 1 && sema.waiters == []
        else PcOf(Now(), t).Waiting? && sema.cur == old(sema.cur) && sema.waiters == [PcOf(Now(), t).ch]
    {
      sema.waiters := [];
      sema.closed := true;
      sema.size := 1;
      mu := None;
      var before := Now().f;
      var o := sema.TryAcquireInternal(t in done, |owners|);
      Settle(t, o, true, before);
    }

    // ---- The operations ----------------------------------------------------------------------------------

    /** The select of line 98 and what follows it. */
    method AwaitReady(t: Caller, others: Others) returns (r: Option<Result>, rest: Others)
      requires Reached(Now()) && PcOf(Now(), t).Waiting?
      modifies this, sema
      ensures Reached(Now()) && Leads(old(Now()), t, Now())
      ensures Ended(Now(), t, r, old(PcOf(Now(), t)).closer)
      ensures r.None? && fault != Panicked ==> rest == []
      ensures others == [] && old(t !in done && pcs[t].ch !in sema.granted) ==> r.None?
      ensures t in old(done) && r.Some? ==> r.value.ContextError?
    {
      Stays(Now(), t);
      rest := others;
      ghost var draining := pcs[t].closer;
      while rest != [] && PcOf(Now(), t).Waiting? && t !in done && pcs[t].ch !in sema.granted
        invariant others == [] ==> Now() == old(Now())
        invariant Reached(Now()) && Leads(old(Now()), t, Now()) && Nudged(old(Now()), Now(), t)
        decreases |rest|
      {
        ghost var before := Now();
        rest := Pause(t, rest);
        Continues(old(Now()), t, before, Now());
      }
      if fault == Panicked {
        return None, rest;
      }
      ghost var before := Now();
      ContextStaysDone(old(Now()), t, before);
      if
      case PcOf(Now(), t).Waiting? && t in done =>
        r, rest := Withdrawing(t, rest);
        Continues(old(Now()), t, before, Now());
      case PcOf(Now(), t).Waiting? && pcs[t].ch in sema.granted =>
        Step(old(Now()), t, Now(), TakeReady(t));
        ReceiveGrant(t);
        before := Now();
        r, rest := AfterWakeup(t, rest);
        Continues(old(Now()), t, before, Now());
      case PcOf(Now(), t).Woken? =>
        r, rest := AfterWakeup(t, rest);
        Continues(old(Now()), t, before, Now());
      case PcOf(Now(), t).Waiting? && t !in done && pcs[t].ch !in sema.granted =>
        r := None;
    }

    /** Lines 99 to 115. */
    method Withdrawing(t: Caller, others: Others) returns (r: Option<Result>, rest: Others)
      requires Reached(Now()) && Enabled(Now(), TakeDone(t))
      modifies this, sema
      ensures Reached(Now()) && Leads(old(Now()), t, Now())
      ensures fault != Panicked ==>
        if r.None? then rest == [] && Blocked(Now(), t) else r.value.ContextError? && Returned(Now(), t, r.value, false)
      ensures fault == Panicked ==> r.None?
    {
      Stays(Now(), t);
      Step(Now(), t, Now(), TakeDone(t));
      pcs := pcs[t := Leaving(pcs[t].ch, pcs[t].closer)];
      ghost var before := Now();
      r := None;
      var free;
      free, rest := Lock(t, others);
      Continues(old(Now()), t, before, Now());
      ContextStaysDone(before, t, Now());
      if free {
        Step(old(Now()), t, Now(), Leave(t));
        LeaveQueue(t);
        r := Some(ContextError);
      }
    }

    /** Lines 117 to 124. */
    method AfterWakeup(t: Caller, others: Others) returns (r: Option<Result>, rest: Others)
      requires Reached(Now()) && PcOf(Now(), t).Woken? && fault != Panicked
      requires PcOf(Now(), t).failed ==> closer.Some?
      modifies this, sema
      ensures Reached(Now()) && Leads(old(Now()), t, Now())
      ensures Ended(Now(), t, r, old(PcOf(Now(), t)).closer)
      ensures r.None? && fault != Panicked ==> rest == []
      ensures if t in old(done) then r.None? || r.value.ContextError?
              else r == Some(if old(pcs[t].failed) then ClosedError else Success)
    {
      r, rest := None, others;
      Stays(Now(), t);
      ClosedByCloser(Now(), t);
      Step(Now(), t, Now(), Inspect(t));
      CheckDone(t);
      if !pcs[t].GivingBack? {
        return Some(if pcs[t].Idle? then ClosedError else Success), rest;
      }
      ghost var before := Now();
      var free;
      free, rest := Lock(t, rest);
      Continues(old(Now()), t, before, Now());
      ContextStaysDone(before, t, Now());
      if free {
        Step(old(Now()), t, Now(), GiveBack(t));
        GiveBackOne(t);
        r := if fault == Panicked then None else Some(ContextError);
      }
    }

    /** s.Release() of line 120, counted if the wakeup had carried an error. */
    method GiveBackOne(t: Caller)
      requires Enabled(Now(), GiveBack(t))
      modifies this, sema
      ensures Now() == Apply(old(Now()), GiveBack(t))
      ensures PcOf(Now(), t).Idle? && done == old(done)
    {
      var before := Now().f;
      spurious := spurious + if pcs[t].failed then 1 else 0;
      var ok := sema.TryRelease();
      pcs := pcs[t := Idle];
      if ok {
        grants := grants + NewGrants(before, Now().f);
      } else {
        fault := Panicked;
      }
    }

    /** Acquire. Either it made its one call and returned, with its token or with an error and without
        one; or somebody panicked; or the others have stopped and it waits, for its first lock or at a
        later statement that blocks. */
    method Acquire(t: Caller, others: Others) returns (r: Option<Result>, rest: Others)
      requires Reached(Now()) && PcOf(Now(), t).Idle?
      modifies this, sema
      ensures Reached(Now()) && (fault == Panicked ==> r.None?)
      ensures r.Some? ==> Makes(old(Now()), CallAcquire(t), Now()) && Returned(Now(), t, r.value, false)
      ensures r.None? && fault != Panicked ==>
        rest == [] &&
        if PcOf(Now(), t).Idle? then mu.Some? && Leads(old(Now()), t, Now())
        else Makes(old(Now()), CallAcquire(t), Now()) && Blocked(Now(), t)
      ensures old(sema.closed) || t in old(done) ==>
        if r.None? then PcOf(Now(), t).Idle? else !r.value.Success? && EndsRefused(old(Now()), CallAcquire(t), Now())
      ensures old(sema.closed) && r.Some? ==> r.value.ClosedError?
      ensures others == [] && old(mu.None? && fault != Panicked) ==>
        r == if old(sema.closed) then Some(ClosedError)
             else if t in old(done) then Some(ContextError)
             else if old(sema.cur < sema.size && sema.waiters == []) then Some(Success)
             else None
    {
      r := None;
      var free;
      free, rest := Lock(t, others);
      if !free {
        return;
      }
      ghost var locked := Now();
      ClosedByCloser(locked, t);
      StaysClosed(old(Now()), t, locked);
      ContextStaysDone(old(Now()), t, locked);
      ReachedStep(locked, CallAcquire(t));
      EnterAcquire(t);
      NotYetGranted(Now(), t);
      Stays(Now(), t);
      if pcs[t].Waiting? {
        r, rest := AwaitReady(t, rest);
      } else {
        r := Some(if pcs[t].Holding? then Success else if sema.closed then ClosedError else ContextError);
      }
      assert Before(old(Now()), CallAcquire(t), locked);
    }

    /** Release by a holder: it ends with the release, which panics exactly if nothing is held; or
        somebody else panicked; or the others have stopped and `mu` is taken. */
    method Release(t: Caller, others: Others) returns (ended: bool, rest: Others)
      requires Reached(Now()) && PcOf(Now(), t).Holding?
      modifies this, sema
      ensures Reached(Now())
      ensures ended ==> EndsWith(old(Now()), CallRelease(t), Now())
      ensures !ended ==> Leads(old(Now()), t, Now()) && PcOf(Now(), t).Holding?
      ensures !ended ==> fault == Panicked || (rest == [] && mu.Some?)
    {
      ended, rest := Lock(t, others);
      if ended {
        ghost var locked := Now();
        ReachedStep(locked, CallRelease(t));
        ReleaseOne(t);
        assert Before(old(Now()), CallRelease(t), locked);
      }
    }

    /** Close: its loop of sends with `mu` held, and the wait for the last token. Either it made its one
        call and returned, nil if everything is drained; or somebody panicked; or the others have
        stopped and it waits, for its first lock, for a receiver or at a later statement that blocks. */
    method Close(t: Caller, others: Others) returns (r: Option<Result>, rest: Others)
      requires Reached(Now()) && PcOf(Now(), t).Idle?
      modifies this, sema
      ensures Reached(Now()) && (fault == Panicked ==> r.None?)
      ensures r.Some? ==> Makes(old(Now()), CallClose(t), Now()) && Returned(Now(), t, r.value, true)
      ensures r.None? && fault != Panicked ==>
        rest == [] &&
        if PcOf(Now(), t).Idle? then mu.Some? && Leads(old(Now()), t, Now())
        else Makes(old(Now()), CallClose(t), Now()) && Blocked(Now(), t)
      ensures r.Some? ==> sema.closed
      ensures t in old(done) ==> r != Some(Success)
      ensures old(sema.closed) && r.Some? ==> r.value.ClosedError?
      ensures others == [] && old(mu.None? && fault != Panicked && sema.waiters == []) ==>
        r == if old(sema.closed) then Some(ClosedError)
             else if t in old(done) then Some(ContextError)
             else if old(sema.cur) == 0 then Some(Success)
             else None
    {
      r := None;
      var free;
      free, rest := Lock(t, others);
      if !free {
        return;
      }
      ghost var locked := Now();
      ClosedByCloser(locked, t);
      StaysClosed(old(Now()), t, locked);
      ContextStaysDone(old(Now()), t, locked);
      ReachedStep(locked, CallClose(t));
      if sema.closed {
        Stays(locked, t);
        r := Some(ClosedError);
      } else {
        mu, closer, pcs := Some(t), Some(t), pcs[t := Sending(sema.waiters)];
        r, rest := CloseLocked(t, rest);
      }
      assert Before(old(Now()), CallClose(t), locked);
    }

    method CloseLocked(t: Caller, others: Others) returns (r: Option<Result>, rest: Others)
      requires Reached(Now()) && mu == Some(t) && PcOf(Now(), t).Sending?
      modifies this, sema
      ensures Reached(Now()) && Leads(old(Now()), t, Now()) && Ended(Now(), t, r, true)
      ensures r.None? && fault != Panicked ==> rest == []
      ensures r.Some? ==> sema.closed && (t in old(done) ==> r.value.ContextError?)
      ensures others == [] && old(pcs[t].rest == [] && fault != Panicked) ==>
        r == if t in old(done) then Some(ContextError) else if old(sema.cur) == 0 then Some(Success) else None
    {
      r := None;
      var sent;
      sent, rest := SendAll(t, others);
      if sent {
        ContextStaysDone(old(Now()), t, Now());
        Step(old(Now()), t, Now(), FinishClose(t));
        EndLoop(t);
        if pcs[t].Waiting? {
          ghost var before := Now();
          NotYetGranted(before, t);
          r, rest := AwaitReady(t, rest);
          Continues(old(Now()), t, before, Now());
          StaysClosed(before, t, Now());
        } else {
          r := Some(if pcs[t].Drained? then Success else ContextError);
        }
      }
    }

    /** Lines 63 to 67: each send waits until its waiter is in the select. */
    method SendAll(t: Caller, others: Others) returns (sent: bool, rest: Others)
      requires Reached(Now()) && mu == Some(t) && PcOf(Now(), t).Sending?
      modifies this, sema
      ensures Reached(Now()) && Leads(old(Now()), t, Now())
      ensures sent ==> Enabled(Now(), FinishClose(t))
      ensures !sent && fault != Panicked ==> rest == [] && Blocked(Now(), t)
      ensures others == [] && old(pcs[t].rest == [] && fault != Panicked) ==> sent && rest == [] && Now() == old(Now())
    {
      Stays(Now(), t);
      rest := others;
      while pcs[t].rest != [] && fault != Panicked
        invariant others == [] && old(pcs[t].rest == [] && fault != Panicked) ==> rest == [] && Now() == old(Now())
        invariant Reached(Now()) && Leads(old(Now()), t, Now()) && mu == Some(t) && t in pcs && pcs[t].Sending?
        decreases |pcs[t].rest|
      {
        FirstIsOwned(Now(), t);
        var ch := pcs[t].rest[0];
        ghost var before := Now();
        var ready;
        ready, rest := AwaitReceiver(t, ch, rest);
        Continues(old(Now()), t, before, Now());
        if !ready {
          return false, rest;
        }
        FirstIsOwned(Now(), t);
        var to := owners[ch];
        Step(old(Now()), t, Now(), SendError(t, to));
        pcs := pcs[t := Sending(pcs[t].rest[1..])][to := Woken(true, pcs[to].closer)];
      }
      sent := fault != Panicked;
    }

    /** The send blocks until the waiter receives: it never does once it took the done case. */
    method AwaitReceiver(t: Caller, ch: Chan, others: Others) returns (ready: bool, rest: Others)
      requires Reached(Now()) && mu == Some(t) && PcOf(Now(), t).Sending?
      modifies this, sema
      ensures Reached(Now()) && Leads(old(Now()), t, Now()) && mu == Some(t) && PcOf(Now(), t) == old(PcOf(Now(), t))
      ensures ready <==> fault != Panicked && Receiving(Now(), ch)
      ensures ready || fault == Panicked || rest == []
    {
      Stays(Now(), t);
      rest := others;
      while rest != [] && !Receiving(Now(), ch)
        invariant Reached(Now()) && Leads(old(Now()), t, Now()) && mu == Some(t) && PcOf(Now(), t) == old(PcOf(Now(), t))
        decreases |rest|
      {
        ghost var before := Now();
        rest := Pause(t, rest);
        Continues(old(Now()), t, before, Now());
      }
      ready := fault != Panicked && Receiving(Now(), ch);
    }
  }
}
