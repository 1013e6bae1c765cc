/** A run in which a pool's drain fails and the session limit of the token is exceeded. Thread 0
    logs in, drops its PoolRef, and logs in again; thread 1 holds a token of the first pool all the
    while. */
module PoolTraces {
  import opened Common
  import opened PoolProtocol
  import opened PoolMoves
  import PB = PoolBound
  import BC = BoundedCounter

  ghost predicate Reaches(s: State) {
    From(Init(), false, s)
  }

  const KEY := Key(7, 0)
  const CALL := Call(0, 0, KEY, 5, TokenInfo(2, 2))

  /** A pool with one undropped PoolRef, whose semaphore has one token, with these holders. */
  function Live(main: nat, holders: set<nat>): Pool {
    Pool(KEY, 0, 5, 2, 1, true, false, Some(main), BC.Counter(1, holders, {}, false, false), false, false, false, 0, None)
  }

  function Unready(main: Option<nat>): Pool {
    Pool(KEY, 0, 5, 2, 1, false, false, main, BC.Counter(1, {}, {}, false, false), false, false, false, 0, Some(0))
  }

  // ---- The run ------------------------------------------------------------------------------------------

  lemma LoginSucceeds(s: State, s': State)
    requires Reaches(s) && s.cache == map[] && PcOf(s, 0).Idle? && !s.panicked && KEY !in s.loggedIn
    requires s' == s.(
      pools := s.pools + [Live(|s.slots|, {})], cache := map[KEY := |s.pools|],
      prefs := s.prefs + [Ref(|s.pools|, 0, 5, 0, false)], slots := s.slots + [Slot(|s.pools|, Main)],
      open := s.open + {|s.slots|}, loggedIn := s.loggedIn + {KEY}, pcs := s.pcs[0 := Idle])
    ensures Reaches(s')
  {
    var p := |s.pools|;
    var a := s.(pcs := s.pcs[0 := Login(CALL, {}, Lookup)]);
    ThenCallLogin(Init(), s, a, 0, CALL);
    var b := a.(pools := s.pools + [Unready(None)], cache := map[KEY := p], pcs := s.pcs[0 := Work(0, p, Opening)]);
    ThenInsert(Init(), false, a, b, 0);
    LoginOpens(s, b, s');
  }

  lemma LoginOpens(s: State, b: State, s': State)
    requires Reaches(b) && !b.panicked && KEY !in b.loggedIn && PcOf(b, 0) == Work(0, |s.pools|, Opening)
    requires b.pools == s.pools + [Unready(None)] && b.slots == s.slots
    requires Alike(s', b.(pools := s.pools + [Live(|s.slots|, {})], prefs := b.prefs + [Ref(|s.pools|, 0, 5, 0, false)],
                          slots := s.slots + [Slot(|s.pools|, Main)], open := b.open + {|s.slots|},
                          loggedIn := b.loggedIn + {KEY}, pcs := b.pcs[0 := Idle]))
    ensures Reaches(s')
  {
    var p, id := |s.pools|, |s.slots|;
    var c := b.(pools := s.pools + [Unready(Some(id))], slots := s.slots + [Slot(p, Main)], open := b.open + {id},
                pcs := b.pcs[0 := Work(0, p, LoggingIn(id))]);
    ThenOpenMain(Init(), false, b, c, 0);
    LoginEnds(s, c, s');
  }

  lemma LoginEnds(s: State, c: State, s': State)
    requires Reaches(c) && !c.panicked && KEY !in c.loggedIn && PcOf(c, 0) == Work(0, |s.pools|, LoggingIn(|s.slots|))
    requires c.pools == s.pools + [Unready(Some(|s.slots|))]
    requires Alike(s', c.(pools := s.pools + [Live(|s.slots|, {})], prefs := c.prefs + [Ref(|s.pools|, 0, 5, 0, false)],
                          loggedIn := c.loggedIn + {KEY}, pcs := c.pcs[0 := Idle]))
    ensures Reaches(s')
  {
    var d := s'.(pcs := c.pcs[0 := Returned(LoggedIn(|c.prefs|))]);
    ThenLoginMain(Init(), false, c, d, 0);
    ThenFinish(Init(), d, s', 0);
  }

  /** One caller waits for the free token. */
  function Waiting(id: nat): BC.Counter {
    BC.Do(BC.Counter(1, {}, {}, false, false), BC.Begin(id))
  }

  const LOGGED_IN := State([Live(0, {})], map[KEY := 0], [Ref(0, 0, 5, 0, false)], [Slot(0, Main)], [], {0}, {KEY},
                           map[0 := Idle], false, false)

  const TOKEN_HELD := LOGGED_IN.(pools := [Live(0, {1})], slots := [Slot(0, Main), Slot(0, OfThread(1))],
                                 pcs := map[0 := Idle, 1 := Token(0, 1, Got)])

  const TOKEN_AWAITED := LOGGED_IN.(pools := [Live(0, {}).(sema := Waiting(1))],
                                    slots := [Slot(0, Main), Slot(0, OfThread(1))],
                                    pcs := map[0 := Idle, 1 := Token(0, 1, Getting)])

  lemma TokenAwaited()
    ensures Reaches(TOKEN_AWAITED)
  {
    Begin(Init(), false);
    LoginSucceeds(Init(), LOGGED_IN);
    ThenGet(Init(), false, LOGGED_IN, TOKEN_AWAITED, 1, 0);
  }

  lemma TokenHeld()
    ensures Reaches(TOKEN_HELD)
  {
    TokenAwaited();
    assert BC.Do(Waiting(1), BC.Take(1)) == Live(0, {1}).sema;
    ThenTake(Init(), false, TOKEN_AWAITED, TOKEN_HELD, 1);
  }

  /** The pool during its shutdown by thread 0. */
  function Dying(closed: bool, loggedOut: bool, emptied: bool): Pool {
    Live(0, {1}).(refs := 0, shutdowns := 1, worker := Some(0), sema := BC.Counter(1, {1}, {}, closed, false),
                  loggedOut := loggedOut, emptied := emptied)
  }

  function Shutdown(pool: Pool, open: set<nat>, loggedIn: set<Key>, pc: Pc): State {
    TOKEN_HELD.(pools := [pool], prefs := [Ref(0, 0, 5, 0, true)], open := open, loggedIn := loggedIn,
                pcs := map[0 := pc, 1 := Token(0, 1, Got)])
  }

  const DEAD := Dying(true, true, true).(removed := true, dead := true, worker := None)

  const DROPPED := Shutdown(DEAD, {}, {}, Idle).(cache := map[])

  lemma ShuttingDown(s: State)
    requires s == Shutdown(Dying(false, false, false), {0}, {KEY}, Work(0, 0, Shutting))
    ensures Reaches(s)
  {
    TokenHeld();
    var a := Shutdown(Live(0, {1}), {0}, {KEY}, Dec(0, 0, LoadDec));
    ThenCallDrop(Init(), TOKEN_HELD, a, 0, 0);
    var b := Shutdown(Live(0, {1}), {0}, {KEY}, Dec(0, 0, CasDec(1)));
    ThenLoadLast(Init(), false, a, b, 0);
    LastSwap(b, s);
  }

  lemma LastSwap(b: State, s: State)
    requires Reaches(b) && b == Shutdown(Live(0, {1}), {0}, {KEY}, Dec(0, 0, CasDec(1)))
    requires s == Shutdown(Dying(false, false, false), {0}, {KEY}, Work(0, 0, Shutting))
    ensures Reaches(s)
  {
    Follow(Init(), false, b, SwapRefs(0), s);
  }

  lemma Dropped()
    ensures Reaches(DROPPED)
  {
    var a := Shutdown(Dying(false, false, false), {0}, {KEY}, Work(0, 0, Shutting));
    ShuttingDown(a);
    var b := Shutdown(Dying(true, false, false), {0}, {KEY}, Work(0, 0, LoggingOut(false)));
    ThenDrainFails(Init(), false, a, b, 0);
    Emptied(b);
  }

  lemma Emptied(b: State)
    requires Reaches(b) && b == Shutdown(Dying(true, false, false), {0}, {KEY}, Work(0, 0, LoggingOut(false)))
    ensures Reaches(DROPPED)
  {
    var c := Shutdown(Dying(true, true, false), {0}, {}, Work(0, 0, ClosingAll(false)));
    ThenLogout(Init(), false, b, c, 0);
    Retired(c);
  }

  lemma Retired(c: State)
    requires Reaches(c) && c == Shutdown(Dying(true, true, false), {0}, {}, Work(0, 0, ClosingAll(false)))
    ensures Reaches(DROPPED)
  {
    var d := Shutdown(Dying(true, true, true), {}, {}, Work(0, 0, Removing(false)));
    assert Reaches(d) by {
      assert SessionsOf(c, KEY) == {0};
      ThenCloseAll(Init(), false, c, d, 0);
    }
    RetiredLast(d);
  }

  lemma RetiredLast(d: State)
    requires Reaches(d) && d == Shutdown(Dying(true, true, true), {}, {}, Work(0, 0, Removing(false)))
    ensures Reaches(DROPPED)
  {
    var e := Shutdown(DEAD, {}, {}, Returned(DropDone(false))).(cache := map[]);
    ThenRetire(Init(), false, d, e, 0);
    ThenFinish(Init(), e, DROPPED, 0);
  }

  const AGAIN := State([DEAD, Live(2, {})], map[KEY := 1], [Ref(0, 0, 5, 0, true), Ref(1, 0, 5, 0, false)],
                       [Slot(0, Main), Slot(0, OfThread(1)), Slot(1, Main)], [], {2}, {KEY},
                       map[0 := Idle, 1 := Token(0, 1, Got)], false, false)

  lemma LoggedInAgain()
    ensures Reaches(AGAIN)
  {
    Dropped();
    LoginSucceeds(DROPPED, AGAIN);
  }

  const SLOTS := [Slot(0, Main), Slot(0, OfThread(1)), Slot(1, Main), Slot(1, OfThread(0))]

  const TAKEN := AGAIN.(pools := [DEAD, Live(2, {3})], slots := SLOTS, pcs := map[0 := Token(1, 3, Got), 1 := Token(0, 1, Got)])

  const TAKING := AGAIN.(pools := [DEAD, Live(2, {}).(sema := Waiting(3))], slots := SLOTS,
                         pcs := map[0 := Token(1, 3, Getting), 1 := Token(0, 1, Got)])

  lemma Taking()
    ensures Reaches(TAKING)
  {
    LoggedInAgain();
    ThenGet(Init(), false, AGAIN, TAKING, 0, 1);
  }

  lemma Taken()
    ensures Reaches(TAKEN)
  {
    Taking();
    assert BC.Do(Waiting(3), BC.Take(3)) == Live(2, {3}).sema;
    ThenTake(Init(), false, TAKING, TAKEN, 0);
  }

  const FULL := AGAIN.(pools := [DEAD, Live(2, {3})],
                       slots := [Slot(0, Main), Slot(0, OfThread(1)), Slot(1, Main), Slot(1, OfHandle(0))],
                       handles := [Handle(1, 3, false)], open := {2, 3},
                       pcs := map[0 := Returned(SessionDone), 1 := Token(0, 1, Got)])

  lemma Full()
    ensures Reaches(FULL)
  {
    Taken();
    ThenOpenTemp(Init(), false, TAKEN, FULL, 0);
  }

  /** Every call into the library succeeded; only the drain did not. Thread 1, which took its token
      before the shutdown, opens its session after it: three sessions are open on a token whose
      pools allow two. */
  lemma FailedDrainExceedsLimit() returns (s: State)
    ensures Reaches(s) && !s.wrapped && (forall p :: 0 <= p < |s.pools| ==> s.pools[p].max == 2)
    ensures |SessionsOf(s, KEY)| == 3 && PB.Allowed(s, KEY) == 2 && PB.Leaked(s, KEY) == {1}
  {
    Full();
    s := FULL.(slots := [Slot(0, Main), Slot(0, OfHandle(1)), Slot(1, Main), Slot(1, OfHandle(0))],
               handles := [Handle(1, 3, false), Handle(0, 1, false)], open := {1, 2, 3},
               pcs := map[0 := Returned(SessionDone), 1 := Returned(SessionDone)]);
    ThenOpenTemp(Init(), false, FULL, s, 1);
    assert SessionsOf(s, KEY) == {1, 2, 3};
  }
}
