/** What holds in every state any run of concurrent callers can reach. */
module SemaphoreSafety {
  import opened Common
  import opened Semaphore
  import opened SemaphoreProtocol

  lemma StepValid(s: State, e: Event)
    requires Valid(s) && Enabled(s, e)
    ensures Valid(Apply(s, e)) && Apply(s, e).limit == s.limit
  {
    ChannelsPreserved(s, e);
    AccountingPreserved(s, e);
    QueuePreserved(s, e);
    ClosingPreserved(s, e);
    FifoPreserved(s, e);
  }

  lemma {:induction false} ExecValid(s: State, es: seq<Event>)
    requires Valid(s) && Exec(s, es).Some?
    ensures Valid(Exec(s, es).value) && Exec(s, es).value.limit == s.limit
    decreases |es|
  {
    if es == [] {
    } else {
      StepValid(s, es[0]);
      ExecValid(Apply(s, es[0]), es[1..]);
    }
  }

  // ---- Token conservation --------------------------------------------------------------------

  /** The counter is the number of tokens held or granted, and neither a panic nor a wrap-around
      of the uint happened. */
  ghost predicate Conserved(s: State) {
    s.fault.NoFault? && s.f.cur == Tokens(s)
  }

  /** Tokens are conserved exactly as long as no caller woken with Close's error called Release. */
  lemma ConservedIffNoSpuriousRelease(limit: uint, es: seq<Event>)
    requires limit >= 1 && Exec(Init(limit), es).Some?
    ensures var s := Exec(Init(limit), es).value; Conserved(s) <==> s.spurious == 0
  {
    ExecValid(Init(limit), es);
  }

  /** The guard of line 117 to 121 that breaks conservation: a wakeup that carries an error, and a
      context that is done as well. */
  predicate ErrorWakeupSeesDone(s: State, e: Event) {
    e.Inspect? && PcOf(s, e.t).Woken? && PcOf(s, e.t).failed && e.t in s.done
  }

  predicate Never(s: State, es: seq<Event>, bad: (State, Event) -> bool)
    decreases |es|
  {
    es == [] || (Enabled(s, es[0]) ==> !bad(s, es[0]) && Never(Apply(s, es[0]), es[1..], bad))
  }

  ghost predicate NothingSpurious(s: State) {
    s.spurious == 0 && forall t :: t in s.pcs ==> !(s.pcs[t].GivingBack? && s.pcs[t].failed)
  }

  lemma {:induction false} NeverSpurious(s: State, es: seq<Event>)
    requires NothingSpurious(s) && Exec(s, es).Some? && Never(s, es, ErrorWakeupSeesDone)
    ensures NothingSpurious(Exec(s, es).value)
    decreases |es|
  {
    if es == [] {
    } else {
      NeverSpurious(Apply(s, es[0]), es[1..]);
    }
  }

  /** Provided no waiter woken with Close's error also sees its context done, every reachable state
      conserves tokens: no Release panics and the counter never wraps. */
  lemma TokensConserved(limit: uint, es: seq<Event>)
    requires limit >= 1 && Exec(Init(limit), es).Some? && Never(Init(limit), es, ErrorWakeupSeesDone)
    ensures Conserved(Exec(Init(limit), es).value)
    ensures var s := Exec(Init(limit), es).value; Tokens(s) <= limit
  {
    NeverSpurious(Init(limit), es);
    ConservedIffNoSpuriousRelease(limit, es);
    ExecValid(Init(limit), es);
  }

  // ---- Drain ---------------------------------------------------------------------------------

  /** When Close returned nil, the tokens of other callers number exactly what the counter and the
      spurious releases say; without spurious releases there are none. */
  lemma DrainedExactly(limit: uint, es: seq<Event>, t: Caller)
    requires limit >= 1 && Exec(Init(limit), es).Some?
    requires var s := Exec(Init(limit), es).value; PcOf(s, t).Drained? && s.fault.NoFault?
    ensures var s := Exec(Init(limit), es).value;
            Tokens(s) - 1 == s.f.cur + s.spurious - 1 <= s.spurious
    ensures var s := Exec(Init(limit), es).value;
            s.spurious == 0 ==> s.f.closed && TokenCallers(s.pcs) == {t} && s.f.granted == {} && s.f.waiters == []
  {
    ExecValid(Init(limit), es);
    var s := Exec(Init(limit), es).value;
    assert t in TokenCallers(s.pcs);
    assert |TokenCallers(s.pcs)| == |TokenCallers(s.pcs) - {t}| + 1;
  }

  lemma {:induction false} DrainedStays(s: State, es: seq<Event>, t: Caller)
    requires PcOf(s, t).Drained? && Exec(s, es).Some?
    ensures PcOf(Exec(s, es).value, t).Drained?
    decreases |es|
  {
    if es == [] {
    } else {
      DrainedStays(Apply(s, es[0]), es[1..], t);
    }
  }

  lemma {:induction false} ExecConcat(s: State, a: seq<Event>, b: seq<Event>)
    requires Exec(s, a).Some?
    ensures Exec(s, a + b) == Exec(Exec(s, a).value, b)
    decreases |a|
  {
    if a == [] {
      assert a + b == b;
    } else {
      assert (a + b)[1..] == a[1..] + b;
      ExecConcat(Apply(s, a[0]), a[1..], b);
    }
  }

  /** After Close returned nil nobody but the closer holds a token, and no caller ever obtains one
      again, however the run goes on. */
  lemma NoAcquireAfterDrain(limit: uint, es: seq<Event>, later: seq<Event>, t: Caller, u: Caller)
    requires limit >= 1 && Exec(Init(limit), es).Some? && PcOf(Exec(Init(limit), es).value, t).Drained?
    requires Exec(Exec(Init(limit), es).value, later).Some?
    requires Never(Init(limit), es + later, ErrorWakeupSeesDone)
    ensures u != t ==> !HasToken(PcOf(Exec(Exec(Init(limit), es).value, later).value, u))
  {
    DrainedStays(Exec(Init(limit), es).value, later, t);
    ExecConcat(Init(limit), es, later);
    TokensConserved(limit, es + later);
    ConservedIffNoSpuriousRelease(limit, es + later);
    DrainedExactly(limit, es + later, t);
    var s := Exec(Init(limit), es + later).value;
    assert HasToken(PcOf(s, u)) ==> u in TokenCallers(s.pcs);
  }

  // ---- No lost wakeup ------------------------------------------------------------------------

  /** In every reachable state a waiter implies exhausted capacity, across Close shrinking `size`
      and even after spurious releases. Hence the notify of line 112 is never called: a waiter that
      gives up without a grant only removes itself. */
  lemma NobodyWaitsForFreeCapacity(limit: uint, es: seq<Event>, t: Caller)
    requires limit >= 1 && Exec(Init(limit), es).Some?
    ensures var s := Exec(Init(limit), es).value;
            s.f.waiters != [] ==> s.f.cur >= s.f.size && Notify(s.f) == s.f
    ensures var s := Exec(Init(limit), es).value;
            PcOf(s, t).Leaving? && PcOf(s, t).ch !in s.f.granted ==>
              Withdraw(s.f, PcOf(s, t).ch) == s.f.(waiters := Without(s.f.waiters, PcOf(s, t).ch))
  {
    ExecValid(Init(limit), es);
    var s := Exec(Init(limit), es).value;
    if PcOf(s, t).Leaving? {
      WithdrawPassesOn(s.f, PcOf(s, t).ch);
    }
  }

  // ---- Who gets a token at once ----------------------------------------------------------------

  /** A call of Acquire is refused if the semaphore is closed or its context is done, and then takes
      nothing; it takes a token at once if one is free and nobody waits; otherwise it queues last. */
  lemma AcquireDecides(s: State, t: Caller)
    requires Valid(s) && Enabled(s, CallAcquire(t))
    ensures var s' := Apply(s, CallAcquire(t)); var pc := PcOf(s', t);
            if s.f.closed || t in s.done then s' == s.(pcs := s.pcs[t := Idle])
            else if s.f.cur < s.f.size && s.f.waiters == [] then
              pc.Holding? && s'.f == s.f.(cur := s.f.cur + 1) && s'.owners == s.owners
            else
              pc.Waiting? && !pc.closer && s'.f == s.f.(waiters := s.f.waiters + [pc.ch]) && s'.owners == s.owners + [t]
  {
  }

  /** Close's own attempt, at the end of its loop: however it ends, the semaphore is closed, of size one
      and free; a closer whose context is done takes nothing, another drains at once or queues. */
  lemma CloseDecides(s: State, t: Caller)
    requires Valid(s) && Enabled(s, FinishClose(t))
    ensures var s' := Apply(s, FinishClose(t)); var pc := PcOf(s', t);
            s'.mu.None? && s'.f.closed && s'.f.size == 1 && s'.f.granted == s.f.granted &&
            if t in s.done then pc.Idle? && s'.f.cur == s.f.cur && s'.f.waiters == []
            else if s.f.cur == 0 then pc.Drained? && s'.f.cur == 1 && s'.f.waiters == []
            else pc.Waiting? && pc.closer && s'.f.cur == s.f.cur && s'.f.waiters == [pc.ch]
  {
  }

  /** A woken caller whose context is done returns what it received, token or error, by a Release; another
      keeps its token, or returns Close's error. */
  lemma WakeupDecides(s: State, t: Caller)
    requires Enabled(s, Inspect(t))
    ensures var s' := Apply(s, Inspect(t)); var pc, pc' := PcOf(s, t), PcOf(s', t);
            s' == s.(pcs := s.pcs[t := pc']) &&
            if t in s.done then pc'.GivingBack? && pc'.failed == pc.failed && pc'.closer == pc.closer
            else if pc.failed then pc'.Idle?
            else if pc.closer then pc'.Drained? else pc'.Holding?
  {
  }

  // ---- Fairness ------------------------------------------------------------------------------

  /** Grants are a subsequence of the arrivals: the granted positions of `owners` increase, and a
      caller still in the queue arrived after every caller granted so far. */
  lemma GrantsFollowArrivals(limit: uint, es: seq<Event>)
    requires limit >= 1 && Exec(Init(limit), es).Some?
    ensures var s := Exec(Init(limit), es).value;
            Increasing(s.grants) && (forall g :: g in s.grants ==> g < |s.owners|) &&
            (forall g, w :: g in s.grants && w in s.f.waiters ==> g < w)
  {
    ExecValid(Init(limit), es);
    var s := Exec(Init(limit), es).value;
    forall g | g in s.grants ensures g <= s.grants[|s.grants| - 1] {
      var i :| 0 <= i < |s.grants| && s.grants[i] == g;
    }
    forall w | w in s.f.waiters ensures w in Members(s.f.waiters) {
    }
  }

  // ---- Stuck states --------------------------------------------------------------------------

  /** The holder of `mu` has an enabled event. */
  ghost predicate HolderCanStep(s: State) {
    s.mu.Some? && (Enabled(s, FinishClose(s.mu.value)) || exists to :: Enabled(s, SendError(s.mu.value, to)))
  }

  /** The waiter Close addresses next took the done case and waits for `mu` at line 100. */
  ghost predicate Stuck(s: State) {
    && s.fault != Panicked
    && s.mu.Some? && PcOf(s, s.mu.value).Sending?
    && var rest := PcOf(s, s.mu.value).rest;
       rest != [] && rest[0] < |s.owners| && PcOf(s, s.owners[rest[0]]).Leaving? &&
       PcOf(s, s.owners[rest[0]]).ch == rest[0]
  }

  lemma StuckHolderWaits(s: State)
    requires Valid(s) && Stuck(s)
    ensures !HolderCanStep(s)
  {
    var t, rest := s.mu.value, PcOf(s, s.mu.value).rest;
    forall to ensures !Enabled(s, SendError(t, to)) {
    }
  }

  lemma HolderStepsUnlessStuck(s: State)
    requires Valid(s) && s.fault != Panicked && s.mu.Some?
    ensures HolderCanStep(s) <==> !Stuck(s)
  {
    var t, rest := s.mu.value, PcOf(s, s.mu.value).rest;
    if Stuck(s) {
      StuckHolderWaits(s);
    } else if rest == [] {
      assert Enabled(s, FinishClose(t));
    } else {
      assert rest[0] in Members(rest) && rest[0] in Open(s);
      assert Enabled(s, SendError(t, s.owners[rest[0]]));
    }
  }

  lemma StuckStep(s: State, e: Event)
    requires Valid(s) && Stuck(s) && Enabled(s, e)
    ensures Stuck(Apply(s, e)) && Apply(s, e).mu == s.mu
  {
    HolderStepsUnlessStuck(s);
  }

  lemma {:induction false} StuckForever(s: State, es: seq<Event>)
    requires Valid(s) && Stuck(s) && Exec(s, es).Some?
    ensures Stuck(Exec(s, es).value) && Exec(s, es).value.mu == s.mu
    decreases |es|
  {
    if es == [] {
    } else {
      StepValid(s, es[0]);
      StuckStep(s, es[0]);
      StuckForever(Apply(s, es[0]), es[1..]);
    }
  }

  /** However the run goes on, `mu` stays with its holder and the holder has no enabled event. */
  ghost predicate Hopeless(s: State) {
    forall later: seq<Event> :: Exec(s, later).Some? ==>
      Exec(s, later).value.mu == s.mu && !HolderCanStep(Exec(s, later).value)
  }

  /** The holder of `mu` can never step again, whatever the other callers do, exactly if it is Close
      at its send and the addressed waiter sits at line 100. */
  lemma StuckCharacterised(limit: uint, es: seq<Event>)
    requires limit >= 1 && Exec(Init(limit), es).Some?
    requires var s := Exec(Init(limit), es).value; s.mu.Some? && s.fault != Panicked
    ensures var s := Exec(Init(limit), es).value; Stuck(s) <==> Hopeless(s)
  {
    ExecValid(Init(limit), es);
    var s := Exec(Init(limit), es).value;
    HolderStepsUnlessStuck(s);
    if Stuck(s) {
      forall later: seq<Event> | Exec(s, later).Some?
        ensures Exec(s, later).value.mu == s.mu && !HolderCanStep(Exec(s, later).value)
      {
        StuckForever(s, later);
        ExecValid(s, later);
        HolderStepsUnlessStuck(Exec(s, later).value);
      }
    } else {
      var nothing: seq<Event> := [];
      assert Exec(s, nothing) == Some(s);
      assert !Hopeless(s);
    }
  }

  /** Close's own events when every addressed waiter is still in its select. */
  function CloseScript(owners: seq<Caller>, t: Caller, rest: seq<Chan>): seq<Event>
    requires forall i :: 0 <= i < |rest| ==> rest[i] < |owners|
  {
    if rest == [] then [FinishClose(t)]
    else [SendError(t, owners[rest[0]])] + CloseScript(owners, t, rest[1..])
  }

  /** Every addressed waiter is still in its select. */
  ghost predicate AllReceiving(s: State, rest: seq<Chan>) {
    forall i :: 0 <= i < |rest| ==> Receiving(s, rest[i])
  }

  ghost predicate Receiving(s: State, ch: Chan) {
    ch < |s.owners| && PcOf(s, s.owners[ch]).Waiting? && PcOf(s, s.owners[ch]).ch == ch
  }

  lemma SendStep(s: State)
    requires Valid(s) && s.fault != Panicked && s.mu.Some?
    requires PcOf(s, s.mu.value).rest != [] && AllReceiving(s, PcOf(s, s.mu.value).rest)
    ensures var t := s.mu.value; var rest := PcOf(s, t).rest; var e := SendError(t, s.owners[rest[0]]);
            Enabled(s, e) &&
            var s' := Apply(s, e);
            s'.mu == s.mu && PcOf(s', t) == Sending(rest[1..]) && s'.owners == s.owners && s'.fault == s.fault &&
            AllReceiving(s', rest[1..])
  {
    var t, rest := s.mu.value, PcOf(s, s.mu.value).rest;
    var to := s.owners[rest[0]];
    var s' := Apply(s, SendError(t, to));
    forall i | 0 <= i < |rest[1..]| ensures Receiving(s', rest[1..][i]) {
      var ch := rest[i + 1];
      assert Receiving(s, rest[0]) && Receiving(s, ch) && rest[0] < ch;
      assert s.owners[ch] != t && s.owners[ch] != to;
    }
  }

  /** If no queued waiter has taken the done case, Close's loop completes: its own events, one per
      waiter, are enabled one after the other and release `mu` with the semaphore closed. */
  lemma {:induction false} CloseCompletes(s: State)
    requires Valid(s) && s.fault != Panicked && s.mu.Some?
    requires AllReceiving(s, PcOf(s, s.mu.value).rest)
    ensures var es := CloseScript(s.owners, s.mu.value, PcOf(s, s.mu.value).rest);
            Exec(s, es).Some? && Exec(s, es).value.mu.None? && Exec(s, es).value.f.closed
    decreases |PcOf(s, s.mu.value).rest|
  {
    var rest := PcOf(s, s.mu.value).rest;
    if rest == [] {
      CloseFinishes(s);
    } else {
      var e := SendError(s.mu.value, s.owners[rest[0]]);
      SendStep(s);
      StepValid(s, e);
      CloseCompletes(Apply(s, e));
      ExecCons(s, e, CloseScript(s.owners, s.mu.value, rest[1..]));
    }
  }

  lemma CloseFinishes(s: State)
    requires Valid(s) && s.fault != Panicked && s.mu.Some? && PcOf(s, s.mu.value).rest == []
    ensures Exec(s, [FinishClose(s.mu.value)]).Some?
    ensures Exec(s, [FinishClose(s.mu.value)]).value.mu.None? && Exec(s, [FinishClose(s.mu.value)]).value.f.closed
  {
    ExecCons(s, FinishClose(s.mu.value), []);
    assert [FinishClose(s.mu.value)] + [] == [FinishClose(s.mu.value)];
  }

  lemma ExecCons(s: State, e: Event, es: seq<Event>)
    requires Enabled(s, e)
    ensures Exec(s, [e] + es) == Exec(Apply(s, e), es)
    ensures Exec(s, []) == Some(s)
    ensures es == [] ==> Exec(s, [e] + es) == Some(Apply(s, e))
  {
    assert ([e] + es)[1..] == es;
  }
}
