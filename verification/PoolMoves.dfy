/** Single steps of the session pools, for building concrete runs. `From(s0, calm, s)` says that some
    run leads from s0 to s; a calm run neither begins nor ends a call of Login or Drop and takes no
    count to zero, so it can happen inside such a call. */
module PoolMoves {
  import opened Common
  import opened PoolProtocol
  import opened PoolRuns
  import BC = BoundedCounter

  predicate Calm(s: State, e: Event)
    requires Enabled(s, e)
  {
    !e.CallLogin? && !e.CallDrop? && (e.Finish? ==> PcOf(s, e.t) == Returned(SessionDone)) &&
    !(e.SwapRefs? && PcOf(s, e.t).Dec? && PcOf(Apply(s, e), e.t).Work?)
  }

  ghost predicate AllCalm(s: State, es: seq<Event>)
    decreases |es|
  {
    es != [] && Enabled(s, es[0]) ==> Calm(s, es[0]) && AllCalm(Apply(s, es[0]), es[1..])
  }

  ghost predicate From(s0: State, calm: bool, s: State) {
    exists es :: Exec(s0, es) == Some(s) && (calm ==> AllCalm(s0, es))
  }

  lemma {:induction false} CalmConcat(s: State, es: seq<Event>, fs: seq<Event>)
    requires Exec(s, es).Some? && AllCalm(s, es) && AllCalm(Exec(s, es).value, fs)
    ensures AllCalm(s, es + fs)
    decreases |es|
  {
    if es == [] {
      assert es + fs == fs;
    } else {
      assert (es + fs)[0] == es[0] && (es + fs)[1..] == es[1..] + fs;
      CalmConcat(Apply(s, es[0]), es[1..], fs);
    }
  }

  lemma Begin(s: State, calm: bool)
    ensures From(s, calm, s)
  {
    var nothing: seq<Event> := [];
    assert Exec(s, nothing) == Some(s) && AllCalm(s, nothing);
  }

  lemma Follow(s0: State, calm: bool, s: State, e: Event, s': State)
    requires From(s0, calm, s) && Enabled(s, e) && Apply(s, e) == s' && (calm ==> Calm(s, e))
    ensures From(s0, calm, s')
  {
    var es :| Exec(s0, es) == Some(s) && (calm ==> AllCalm(s0, es));
    assert Exec(s, [e]) == Exec(Apply(s, e), [e][1..]) == Some(Apply(s, e));
    ExecConcat(s0, es, [e]);
    if calm {
      assert AllCalm(Apply(s, e), [e][1..]);
      assert AllCalm(s, [e]);
      CalmConcat(s0, es, [e]);
    }
  }

  // ---- Steps ------------------------------------------------------------------------------------------

  predicate Alike(a: State, b: State) {
    && a.pools == b.pools && a.cache == b.cache && a.prefs == b.prefs && a.slots == b.slots && a.handles == b.handles
    && a.open == b.open && a.loggedIn == b.loggedIn && a.pcs == b.pcs && a.panicked == b.panicked && a.wrapped == b.wrapped
  }

  predicate Runs(s: State, t: Thread) {
    Known(s, t) && !s.panicked
  }

  /** A step that changes the pool of a thread and its program counter. */
  function Moved(s: State, t: Thread, pool: Pool, pc: Pc): State
    requires Known(s, t)
  {
    s.(pools := s.pools[Subject(PcOf(s, t)).value := pool], pcs := s.pcs[t := pc])
  }

  function NewPool(c: Call, t: Thread): Pool
    requires MaxSessions(c.info) >= 2
  {
    Pool(c.key, c.mod, c.pin, MaxSessions(c.info), 1, false, false, None,
         BC.Counter(MaxSessions(c.info) - 1, {}, {}, false, false), false, false, false, 0, Some(t))
  }

  lemma ThenInsert(s0: State, calm: bool, s: State, s': State, t: Thread)
    requires From(s0, calm, s) && !s.panicked && PcOf(s, t).Login? && PcOf(s, t).at.Lookup?
    requires PcOf(s, t).c.key !in s.cache && MaxSessions(PcOf(s, t).c.info) >= 2
    requires var c := PcOf(s, t).c;
             Alike(s', s.(pools := s.pools + [NewPool(c, t)], cache := s.cache[c.key := |s.pools|],
                          pcs := s.pcs[t := Work(c.app, |s.pools|, Opening)]))
    ensures From(s0, calm, s')
  {
    Follow(s0, calm, s, FindPool(t), s');
  }

  /** Login finds a live pool for its PIN and goes on to incRefs. */
  lemma ThenFind(s0: State, calm: bool, s: State, s': State, t: Thread)
    requires From(s0, calm, s) && !s.panicked && PcOf(s, t).Login? && PcOf(s, t).at.Lookup? && PcOf(s, t).c.key in s.cache
    requires var p := s.cache[PcOf(s, t).c.key]; p < |s.pools| && s.pools[p].live && s.pools[p].pin == PcOf(s, t).c.pin
    requires var Login(c, seen, _) := PcOf(s, t); Alike(s', s.(pcs := s.pcs[t := Login(c, seen, LoadInc(s.cache[c.key]))]))
    ensures From(s0, calm, s')
  {
    var Login(c, seen, _) := PcOf(s, t);
    var a := s.(pcs := s.pcs[t := Login(c, seen, AwaitLive(s.cache[c.key]))]);
    Follow(s0, calm, s, FindPool(t), a);
    Follow(s0, calm, a, SeeLive(t), s');
  }

  lemma ThenShare(s0: State, calm: bool, s: State, s': State, t: Thread)
    requires From(s0, calm, s) && Runs(s, t) && PcOf(s, t).Login? && PcOf(s, t).at.LoadInc?
    requires 0 < PoolOf(s, t).refs < UINT32_MOD - 1
    requires var Login(c, _, at) := PcOf(s, t); var pool := s.pools[at.p];
             Alike(s', Moved(s, t, pool.(refs := pool.refs + 1), Returned(LoggedIn(|s.prefs|))).(
                          prefs := s.prefs + [Ref(at.p, c.app, c.pin, t, false)]))
    ensures From(s0, calm, s')
  {
    var Login(c, seen, at) := PcOf(s, t);
    var a := s.(pcs := s.pcs[t := Login(c, seen, CasInc(at.p, s.pools[at.p].refs))]);
    Follow(s0, calm, s, LoadRefs(t), a);
    Follow(s0, calm, a, SwapRefs(t), s');
  }

  lemma ThenOpenMain(s0: State, calm: bool, s: State, s': State, t: Thread)
    requires From(s0, calm, s) && Runs(s, t) && PcOf(s, t).Work? && PcOf(s, t).work.Opening?
    requires var Work(app, p, _) := PcOf(s, t); var id := |s.slots|;
             Alike(s', s.(pools := s.pools[p := s.pools[p].(main := Some(id))], slots := s.slots + [Slot(p, Main)],
                          open := s.open + {id}, pcs := s.pcs[t := Work(app, p, LoggingIn(id))]))
    ensures From(s0, calm, s')
  {
    Follow(s0, calm, s, OpenMain(t, true), s');
  }

  lemma ThenLoginMain(s0: State, calm: bool, s: State, s': State, t: Thread)
    requires From(s0, calm, s) && Runs(s, t) && PcOf(s, t).Work? && PcOf(s, t).work.LoggingIn?
    requires !PoolOf(s, t).live && PoolOf(s, t).key !in s.loggedIn
    requires var Work(app, p, _) := PcOf(s, t); var pool := s.pools[p];
             Alike(s', s.(pools := s.pools[p := pool.(live := true, worker := None)], loggedIn := s.loggedIn + {pool.key},
                          prefs := s.prefs + [Ref(p, app, pool.pin, t, false)], pcs := s.pcs[t := Returned(LoggedIn(|s.prefs|))]))
    ensures From(s0, calm, s')
  {
    Follow(s0, calm, s, LoginMain(t, true), s');
  }

  lemma ThenFinish(s0: State, s: State, s': State, t: Thread)
    requires From(s0, false, s) && !s.panicked && PcOf(s, t).Returned? && Alike(s', s.(pcs := s.pcs[t := Idle]))
    ensures From(s0, false, s')
  {
    Follow(s0, false, s, Finish(t), s');
  }

  lemma ThenGet(s0: State, calm: bool, s: State, s': State, t: Thread, r: RefId)
    requires From(s0, calm, s) && !s.panicked && PcOf(s, t).Idle? && r < |s.prefs| && s.prefs[r].pool < |s.pools|
    requires BC.Can(s.pools[s.prefs[r].pool].sema, BC.Begin(|s.slots|))
    requires var p, id := s.prefs[r].pool, |s.slots|; var pool := s.pools[p];
             Alike(s', s.(pools := s.pools[p := pool.(sema := BC.Do(pool.sema, BC.Begin(id)))],
                          slots := s.slots + [Slot(p, OfThread(t))], pcs := s.pcs[t := Token(p, id, Getting)]))
    ensures From(s0, calm, s')
  {
    Follow(s0, calm, s, CallGet(t, r), s');
  }

  lemma ThenTake(s0: State, calm: bool, s: State, s': State, t: Thread)
    requires From(s0, calm, s) && Runs(s, t) && PcOf(s, t).Token? && PcOf(s, t).token.Getting?
    requires BC.Can(PoolOf(s, t).sema, BC.Take(PcOf(s, t).id))
    requires var Token(p, id, _) := PcOf(s, t);
             Alike(s', Moved(s, t, s.pools[p].(sema := BC.Do(s.pools[p].sema, BC.Take(id))), Token(p, id, Got)))
    ensures From(s0, calm, s')
  {
    Follow(s0, calm, s, TakeToken(t), s');
  }

  lemma ThenOpenTemp(s0: State, calm: bool, s: State, s': State, t: Thread)
    requires From(s0, calm, s) && Runs(s, t) && PcOf(s, t).Token? && PcOf(s, t).token.Got? && PcOf(s, t).id < |s.slots|
    requires var Token(p, id, _) := PcOf(s, t);
             Alike(s', s.(slots := s.slots[id := s.slots[id].(owner := OfHandle(|s.handles|))], open := s.open + {id},
                          handles := s.handles + [Handle(p, id, false)], pcs := s.pcs[t := Returned(SessionDone)]))
    ensures From(s0, calm, s')
  {
    Follow(s0, calm, s, OpenTemp(t, true), s');
  }

  /** A Drop that is not the last. */
  lemma ThenDecrement(s0: State, calm: bool, s: State, s': State, t: Thread)
    requires From(s0, calm, s) && Runs(s, t) && PcOf(s, t).Dec? && PcOf(s, t).dec.LoadDec? && PoolOf(s, t).refs > 1
    requires Alike(s', Moved(s, t, PoolOf(s, t).(refs := PoolOf(s, t).refs - 1), Returned(DropDone(true))))
    ensures From(s0, calm, s')
  {
    var Dec(app, p, _) := PcOf(s, t);
    var a := s.(pcs := s.pcs[t := Dec(app, p, CasDec(s.pools[p].refs))]);
    Follow(s0, calm, s, LoadRefs(t), a);
    Follow(s0, calm, a, SwapRefs(t), s');
  }

  lemma ThenLoadLast(s0: State, calm: bool, s: State, s': State, t: Thread)
    requires From(s0, calm, s) && Runs(s, t) && PcOf(s, t).Dec? && PcOf(s, t).dec.LoadDec? && PoolOf(s, t).refs == 1
    requires var Dec(app, p, _) := PcOf(s, t); Alike(s', s.(pcs := s.pcs[t := Dec(app, p, CasDec(1))]))
    ensures From(s0, calm, s')
  {
    Follow(s0, calm, s, LoadRefs(t), s');
  }

  /** The semaphore is closed, and the context ends before the tokens are back. */
  lemma ThenDrainFails(s0: State, calm: bool, s: State, s': State, t: Thread)
    requires From(s0, calm, s) && Runs(s, t) && PcOf(s, t).Work? && PcOf(s, t).work.Shutting? && !PoolOf(s, t).sema.closed
    requires var Work(app, p, _) := PcOf(s, t);
             Alike(s', Moved(s, t, s.pools[p].(sema := BC.Do(s.pools[p].sema, BC.Shut)), Work(app, p, LoggingOut(false))))
    ensures From(s0, calm, s')
  {
    var Work(app, p, _) := PcOf(s, t);
    var a := s'.(pcs := s.pcs[t := Work(app, p, Draining)]);
    Follow(s0, calm, s, ShutSemaphore(t), a);
    ThenGiveUp(s0, calm, a, s', t);
  }

  lemma ThenGiveUp(s0: State, calm: bool, s: State, s': State, t: Thread)
    requires From(s0, calm, s) && Runs(s, t) && PcOf(s, t).Work? && PcOf(s, t).work.Draining?
    requires var Work(app, p, _) := PcOf(s, t); Alike(s', s.(pcs := s.pcs[t := Work(app, p, LoggingOut(false))]))
    ensures From(s0, calm, s')
  {
    Follow(s0, calm, s, GiveUp(t), s');
  }

  lemma ThenLogout(s0: State, calm: bool, s: State, s': State, t: Thread)
    requires From(s0, calm, s) && Runs(s, t) && PcOf(s, t).Work? && PcOf(s, t).work == LoggingOut(false)
    requires var Work(app, p, _) := PcOf(s, t); var pool := s.pools[p];
             Alike(s', s.(pools := s.pools[p := pool.(loggedOut := true)], loggedIn := s.loggedIn - {pool.key},
                          pcs := s.pcs[t := Work(app, p, ClosingAll(false))]))
    ensures From(s0, calm, s')
  {
    Follow(s0, calm, s, Logout(t, true), s');
  }

  lemma ThenCloseAll(s0: State, calm: bool, s: State, s': State, t: Thread)
    requires From(s0, calm, s) && Runs(s, t) && PcOf(s, t).Work? && PcOf(s, t).work == ClosingAll(false)
    requires var Work(app, p, _) := PcOf(s, t); var pool := s.pools[p];
             Alike(s', s.(pools := s.pools[p := pool.(emptied := true)], open := s.open - SessionsOf(s, pool.key),
                          loggedIn := s.loggedIn - {pool.key}, pcs := s.pcs[t := Work(app, p, Removing(false))]))
    ensures From(s0, calm, s')
  {
    Follow(s0, calm, s, CloseAll(t, true), s');
  }

  lemma ThenRetire(s0: State, calm: bool, s: State, s': State, t: Thread)
    requires From(s0, calm, s) && Runs(s, t) && PcOf(s, t).Work? && PcOf(s, t).work == Removing(false) && !PoolOf(s, t).dead
    requires var Work(app, p, _) := PcOf(s, t); var pool := s.pools[p];
             Alike(s', s.(pools := s.pools[p := pool.(removed := true, dead := true, worker := None)],
                          cache := s.cache - {pool.key}, pcs := s.pcs[t := Returned(DropDone(false))]))
    ensures From(s0, calm, s')
  {
    var Work(app, p, _) := PcOf(s, t);
    var pool := s.pools[p];
    var a := s.(pools := s.pools[p := pool.(removed := true)], cache := s.cache - {pool.key},
                pcs := s.pcs[t := Work(app, p, Burying(false))]);
    Follow(s0, calm, s, Remove(t), a);
    ThenBury(s0, calm, a, s', t);
  }

  lemma ThenBury(s0: State, calm: bool, s: State, s': State, t: Thread)
    requires From(s0, calm, s) && Runs(s, t) && PcOf(s, t).Work? && PcOf(s, t).work == Burying(false) && !PoolOf(s, t).dead
    requires Alike(s', Moved(s, t, PoolOf(s, t).(dead := true, worker := None), Returned(DropDone(false))))
    ensures From(s0, calm, s')
  {
    Follow(s0, calm, s, Bury(t), s');
  }

  lemma ThenCallLogin(s0: State, s: State, s': State, t: Thread, c: Call)
    requires From(s0, false, s) && !s.panicked && PcOf(s, t).Idle? && Alike(s', s.(pcs := s.pcs[t := Login(c, {}, Lookup)]))
    ensures From(s0, false, s')
  {
    Follow(s0, false, s, CallLogin(t, c), s');
  }

  lemma ThenCallDrop(s0: State, s: State, s': State, t: Thread, r: RefId)
    requires From(s0, false, s) && !s.panicked && PcOf(s, t).Idle? && r < |s.prefs| && !s.prefs[r].dropped
    requires var ref := s.prefs[r];
             Alike(s', s.(prefs := s.prefs[r := ref.(dropped := true)], pcs := s.pcs[t := Dec(ref.app, ref.pool, LoadDec)]))
    ensures From(s0, false, s')
  {
    Follow(s0, false, s, CallDrop(t, r), s');
  }
}
