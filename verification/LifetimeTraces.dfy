/** A run in which a session call reaches a library that is finalized. A KMS (instance 0, thread 0) and
    a wrapper (instance 1, thread 2) share a pool; thread 1 takes a token of it on behalf of the KMS.
    The KMS closes first, so its Drop is not the last and it gives its module up; the wrapper's Drop
    fails to drain, which `with` only logs, and Finalize unloads the module. Thread 1 is still about to
    call OpenSession. */
module LifetimeTraces {
  import opened Common
  import opened Lifetime
  import LS = LifetimeSteps
  import SF = LifetimeSafety
  import PM = PoolMoves
  import P = PoolProtocol
  import BC = BoundedCounter
  import M = ModuleCache

  ghost predicate Reaches(s: State) {
    exists es :: Exec(EMPTY, es) == Some(s)
  }

  lemma {:induction false} Extend(s: State, es: seq<Event>, e: Event)
    requires Exec(s, es).Some? && Enabled(Exec(s, es).value, e)
    ensures Exec(s, es + [e]) == Some(Apply(Exec(s, es).value, e))
    decreases |es|
  {
    if es == [] {
      assert [e][1..] == [] && es + [e] == [e];
    } else {
      Extend(Apply(s, es[0]), es[1..], e);
      assert (es + [e])[1..] == es[1..] + [e];
    }
  }

  lemma Then(s: State, e: Event, s': State)
    requires Reaches(s) && Enabled(s, e) && Apply(s, e) == s'
    ensures Reaches(s')
  {
    var es :| Exec(EMPTY, es) == Some(s);
    Extend(EMPTY, es, e);
    assert Exec(EMPTY, es + [e]) == Some(s');
  }

  lemma CalmIsInner(s: State, pe: P.Event)
    requires P.Enabled(s.p, pe) && PM.Calm(s.p, pe)
    ensures Enabled(s, Pool(pe)) && Apply(s, Pool(pe)) == s.(p := P.Apply(s.p, pe))
  {
  }

  lemma {:induction false} CalmRun(s: State, pes: seq<P.Event>)
    requires Reaches(s) && P.Exec(s.p, pes).Some? && PM.AllCalm(s.p, pes)
    ensures Reaches(s.(p := P.Exec(s.p, pes).value))
    decreases |pes|
  {
    if pes == [] {
      assert s == s.(p := s.p);
    } else {
      CalmIsInner(s, pes[0]);
      Then(s, Pool(pes[0]), s.(p := P.Apply(s.p, pes[0])));
      CalmRun(s.(p := P.Apply(s.p, pes[0])), pes[1..]);
    }
  }

  /** A calm run of the session layer is a run of the joint system. */
  lemma ThenCalm(s: State, s': State)
    requires Reaches(s) && PM.From(s.p, true, s'.p) && s' == s.(p := s'.p)
    ensures Reaches(s')
  {
    var pes :| P.Exec(s.p, pes) == Some(s'.p) && PM.AllCalm(s.p, pes);
    CalmRun(s, pes);
  }

  // ---- Single steps of the instances ------------------------------------------------------------------

  predicate AlikeApps(a: State, b: State) {
    PM.Alike(a.p, b.p) && a.c.libs == b.c.libs && a.c.cache == b.c.cache && a.c.refs == b.c.refs &&
    a.apps == b.apps && a.tasks == b.tasks && a.shutters == b.shutters
  }

  lemma ThenCallLogin(s: State, s': State, t: Thread, login: Login)
    requires Reaches(s) && !s.p.panicked && P.PcOf(s.p, t).Idle? && TaskOf(s, t).Opening? && KnownApp(s, TaskOf(s, t).a)
    requires var a := TaskOf(s, t).a;
             AlikeApps(s', s.(p := s.p.(pcs := s.p.pcs[t := P.Login(CallOf(s, a, login), {}, P.Lookup)]),
                              tasks := s.tasks[t := LoggingIn(a)]))
    ensures Reaches(s')
  {
    Then(s, FoundToken(t, login), s');
  }

  lemma ThenEnter(s: State, s': State, t: Thread, a: AppId, login: Login)
    requires Reaches(s) && !s.p.panicked && P.PcOf(s.p, t).Idle? && TaskOf(s, t).Free? && KnownApp(s, a)
    requires s.apps[a].stage.Serving?
    requires AlikeApps(s', s.(p := s.p.(pcs := s.p.pcs[t := P.Login(CallOf(s, a, login), {}, P.Lookup)]),
                              apps := s.apps[a := s.apps[a].(stage := Serving(Users(s.apps[a]) + {t}))],
                              tasks := s.tasks[t := Entered(a)]))
    ensures Reaches(s')
  {
    Then(s, CallWith(t, a, login), s');
  }

  lemma ThenLoggedIn(s: State, s': State, t: Thread)
    requires Reaches(s) && !s.p.panicked && P.PcOf(s.p, t).Returned? && P.PcOf(s.p, t).result.LoggedIn?
    requires (TaskOf(s, t).LoggingIn? || TaskOf(s, t).Entered?) && TaskOf(s, t).a < |s.apps|
    requires var task, r := TaskOf(s, t), P.PcOf(s.p, t).result.r;
             AlikeApps(s', s.(p := s.p.(pcs := s.p.pcs[t := P.Idle]),
               apps := if task.LoggingIn? then s.apps[task.a := s.apps[task.a].(stage := Ready(r), pref := Some(r))] else s.apps,
               tasks := s.tasks[t := if task.LoggingIn? then Free else Using(task.a, r)]))
    ensures Reaches(s')
  {
    Then(s, LoginReturned(t), s');
  }

  lemma ThenClose(s: State, s': State, t: Thread, a: AppId)
    requires Reaches(s) && !s.p.panicked && P.PcOf(s.p, t).Idle? && TaskOf(s, t).Free? && a < |s.apps|
    requires s.apps[a].pref.Some? && s.apps[a].pref.value < |s.p.prefs| && !s.p.prefs[s.apps[a].pref.value].dropped
    requires var r := s.apps[a].pref.value; var ref := s.p.prefs[r];
             AlikeApps(s', s.(p := s.p.(prefs := s.p.prefs[r := ref.(dropped := true)],
                                        pcs := s.p.pcs[t := P.Dec(ref.app, ref.pool, P.LoadDec)]),
                              apps := s.apps[a := s.apps[a].(stage := Leaving(t))], tasks := s.tasks[t := Closing(a)]))
    ensures Reaches(s')
  {
    Then(s, CallClose(t, a), s');
  }

  lemma ThenEndCallback(s: State, s': State, t: Thread)
    requires Reaches(s) && !s.p.panicked && P.PcOf(s.p, t).Idle? && TaskOf(s, t).Using?
    requires TaskOf(s, t).r < |s.p.prefs| && !s.p.prefs[TaskOf(s, t).r].dropped
    requires var Using(a, r) := TaskOf(s, t); var ref := s.p.prefs[r];
             AlikeApps(s', s.(p := s.p.(prefs := s.p.prefs[r := ref.(dropped := true)],
                                        pcs := s.p.pcs[t := P.Dec(ref.app, ref.pool, P.LoadDec)]),
                              tasks := s.tasks[t := Returning(a)]))
    ensures Reaches(s')
  {
    Then(s, WithDone(t), s');
  }

  lemma ThenLeave(s: State, s': State, t: Thread)
    requires Reaches(s) && !s.p.panicked && P.PcOf(s.p, t).Returned? && P.PcOf(s.p, t).result.DropDone?
    requires TaskOf(s, t).Returning? && TaskOf(s, t).a < |s.apps|
    requires var a := TaskOf(s, t).a;
             AlikeApps(s', s.(p := s.p.(pcs := s.p.pcs[t := P.Idle]),
                              apps := s.apps[a := s.apps[a].(stage := Serving(Users(s.apps[a]) - {t}))],
                              tasks := s.tasks[t := Free]))
    ensures Reaches(s')
  {
    Then(s, DropReturned(t), s');
  }

  /** A clean Drop in Close: the instance goes on to drop its module. */
  lemma ThenClosed(s: State, s': State, t: Thread)
    requires Reaches(s) && !s.p.panicked && P.PcOf(s.p, t) == P.Returned(P.DropDone(true))
    requires TaskOf(s, t).Closing? && TaskOf(s, t).a < |s.apps|
    requires var a := TaskOf(s, t).a;
             AlikeApps(s', s.(p := s.p.(pcs := s.p.pcs[t := P.Idle]),
                              apps := s.apps[a := s.apps[a].(stage := Left, dropper := Some(t))],
                              tasks := s.tasks[t := Unloading(a)]))
    ensures Reaches(s')
  {
    Then(s, DropReturned(t), s');
  }

  /** Ref.Drop, both sections. */
  lemma ThenUnload(s: State, s': State, t: Thread)
    requires Reaches(s) && TaskOf(s, t).Unloading? && KnownApp(s, TaskOf(s, t).a)
    requires !s.c.refs[s.apps[TaskOf(s, t).a].mref].dropped
    requires var r := s.apps[TaskOf(s, t).a].mref;
             s' == s.(c := M.Settle(M.Mark(s.c, r).0, r), tasks := s.tasks[t := Free])
    ensures Reaches(s')
  {
    var a := TaskOf(s, t).a;
    var b := s.(c := M.Mark(s.c, s.apps[a].mref).0, tasks := s.tasks[t := Settling(a)]);
    Then(s, MarkModule(t), b);
    assert b.tasks[t := Free] == s'.tasks;
    Then(b, SettleModule(t), s');
  }

  lemma ThenLastSwap(s: State, s': State, t: Thread)
    requires Reaches(s) && P.Known(s.p, t) && !s.p.panicked && P.PcOf(s.p, t).Dec? && P.PcOf(s.p, t).dec == P.CasDec(1)
    requires P.PoolOf(s.p, t).refs == 1
    requires var app, p := P.PcOf(s.p, t).app, P.PcOf(s.p, t).p; var pool := s.p.pools[p];
             AlikeApps(s', s.(p := s.p.(pools := s.p.pools[p := pool.(refs := 0, shutdowns := pool.shutdowns + 1, worker := Some(t))],
                                        pcs := s.p.pcs[t := P.Work(app, p, P.Shutting)]),
                              shutters := s.shutters[p := app]))
    ensures Reaches(s')
  {
    Then(s, Pool(P.SwapRefs(t)), s');
  }

  // ---- The run --------------------------------------------------------------------------------------------

  const KEY := P.Key(7, 0)
  const LOGIN := Login(7, 5, P.TokenInfo(2, 2))

  function CallBy(a: AppId): P.Call {
    P.Call(a, 0, KEY, 5, P.TokenInfo(2, 2))
  }

  function Live(refs: uint32, holders: set<nat>): P.Pool {
    P.Pool(KEY, 0, 5, 2, refs, true, false, Some(0), BC.Counter(1, holders, {}, false, false), false, false, false, 0, None)
  }

  function Sessions(pool: P.Pool, prefs: seq<P.Ref>, slots: seq<P.Slot>, pcs: map<Thread, P.Pc>): P.State {
    P.State([pool], map[KEY := 0], prefs, slots, [], {0}, {KEY}, pcs, false, false)
  }

  const KMS_REF := P.Ref(0, 0, 5, 0, false)
  const WITH_REF := P.Ref(0, 1, 5, 2, false)
  const MAIN_SLOT := P.Slot(0, P.Main)
  const TAKEN_SLOT := P.Slot(0, P.OfThread(1))
  const TOKEN := P.Token(0, 1, P.Got)

  function Modules(refs: int, gone: nat, kmsDropped: bool, withDropped: bool): M.Contents {
    M.Contents([M.Library(0, refs, gone, gone)], if refs == 0 then map[] else map[0 := 0],
               [M.Ref(0, kmsDropped, kmsDropped), M.Ref(0, withDropped, withDropped)])
  }

  const ONE_MODULE := M.Contents([M.Library(0, 1, 0, 0)], map[0 := 0], [M.Ref(0, false, false)])

  // The KMS opens.

  const ENTERING := App(0, Entering(0), None, None)
  const KMS := App(0, Ready(0), Some(0), None)

  const OPENING := State(P.Init(), ONE_MODULE, [ENTERING], map[0 := Opening(0)], map[])

  const LOGGING_IN := State(P.Init().(pcs := map[0 := P.Login(CallBy(0), {}, P.Lookup)]), ONE_MODULE, [ENTERING],
                            map[0 := LoggingIn(0)], map[])

  const LOGGED_IN := State(Sessions(Live(1, {}), [KMS_REF], [MAIN_SLOT], map[0 := P.Returned(P.LoggedIn(0))]), ONE_MODULE,
                           [ENTERING], map[0 := LoggingIn(0)], map[])

  const READY := State(Sessions(Live(1, {}), [KMS_REF], [MAIN_SLOT], map[0 := P.Idle]), ONE_MODULE, [KMS],
                       map[0 := Free], map[])

  lemma OpeningReached()
    ensures Reaches(OPENING)
  {
    assert Exec(EMPTY, []) == Some(EMPTY);
    Then(EMPTY, OpenModule(0, 0, M.Loads), OPENING);
  }

  lemma LoggingInReached()
    ensures Reaches(LOGGING_IN)
  {
    OpeningReached();
    ThenCallLogin(OPENING, LOGGING_IN, 0, LOGIN);
  }

  lemma LoginRuns()
    ensures PM.From(LOGGING_IN.p, true, LOGGED_IN.p)
  {
    var p := LOGGING_IN.p;
    PM.Begin(p, true);
    var a := p.(pools := [PM.NewPool(CallBy(0), 0)], cache := map[KEY := 0], pcs := map[0 := P.Work(0, 0, P.Opening)]);
    PM.ThenInsert(p, true, p, a, 0);
    LoginGoesOn(a);
  }

  lemma LoginGoesOn(a: P.State)
    requires PM.From(LOGGING_IN.p, true, a)
    requires a == P.Init().(pools := [PM.NewPool(CallBy(0), 0)], cache := map[KEY := 0], pcs := map[0 := P.Work(0, 0, P.Opening)])
    ensures PM.From(LOGGING_IN.p, true, LOGGED_IN.p)
  {
    var p := LOGGING_IN.p;
    var b := a.(pools := [PM.NewPool(CallBy(0), 0).(main := Some(0))], slots := [MAIN_SLOT], open := {0},
                pcs := map[0 := P.Work(0, 0, P.LoggingIn(0))]);
    PM.ThenOpenMain(p, true, a, b, 0);
    LoginEnds(p, b);
  }

  lemma LoginEnds(p: P.State, b: P.State)
    requires PM.From(p, true, b)
    requires b == P.State([PM.NewPool(CallBy(0), 0).(main := Some(0))], map[KEY := 0], [], [MAIN_SLOT], [], {0}, {},
                          map[0 := P.Work(0, 0, P.LoggingIn(0))], false, false)
    ensures PM.From(p, true, LOGGED_IN.p)
  {
    PM.ThenLoginMain(p, true, b, LOGGED_IN.p, 0);
  }

  lemma LoggedInReached()
    ensures Reaches(LOGGED_IN)
  {
    LoggingInReached();
    LoginRuns();
    ThenCalm(LOGGING_IN, LOGGED_IN);
  }

  lemma ReadyReached()
    ensures Reaches(READY)
  {
    LoggedInReached();
    ThenLoggedIn(LOGGED_IN, READY, 0);
  }

  // The wrapper is configured and enters `with`.

  const IDLE_WRAPPER := App(1, Serving({}), None, None)
  const WRAPPER := App(1, Serving({2}), None, None)

  const BOTH := State(Sessions(Live(1, {}), [KMS_REF], [MAIN_SLOT], map[0 := P.Idle]), Modules(2, 0, false, false),
                      [KMS, IDLE_WRAPPER], map[0 := Free, 2 := Free], map[])

  const ENTERED := State(Sessions(Live(1, {}), [KMS_REF], [MAIN_SLOT], map[0 := P.Idle, 2 := P.Login(CallBy(1), {}, P.Lookup)]),
                         Modules(2, 0, false, false), [KMS, WRAPPER], map[0 := Free, 2 := Entered(1)], map[])

  const SHARED := State(Sessions(Live(2, {}), [KMS_REF, WITH_REF], [MAIN_SLOT], map[0 := P.Idle, 2 := P.Returned(P.LoggedIn(1))]),
                        Modules(2, 0, false, false), [KMS, WRAPPER], map[0 := Free, 2 := Entered(1)], map[])

  const USING := State(Sessions(Live(2, {}), [KMS_REF, WITH_REF], [MAIN_SLOT], map[0 := P.Idle, 2 := P.Idle]),
                       Modules(2, 0, false, false), [KMS, WRAPPER], map[0 := Free, 2 := Using(1, 1)], map[])

  lemma BothReached()
    ensures Reaches(BOTH)
  {
    ReadyReached();
    var a := BOTH.(apps := [KMS, App(1, Entering(2), None, None)], tasks := map[0 := Free, 2 := Opening(1)]);
    Then(READY, OpenModule(2, 0, M.Loads), a);
    Then(a, Configured(2), BOTH);
  }

  lemma EnteredReached()
    ensures Reaches(ENTERED)
  {
    BothReached();
    assert Users(IDLE_WRAPPER) + {2} == {2};
    ThenEnter(BOTH, ENTERED, 2, 1, LOGIN);
  }

  lemma SharingRuns()
    ensures PM.From(ENTERED.p, true, SHARED.p)
  {
    var p := ENTERED.p;
    PM.Begin(p, true);
    var a := p.(pcs := map[0 := P.Idle, 2 := P.Login(CallBy(1), {}, P.LoadInc(0))]);
    PM.ThenFind(p, true, p, a, 2);
    PM.ThenShare(p, true, a, SHARED.p, 2);
  }

  lemma UsingReached()
    ensures Reaches(USING)
  {
    SharedReached();
    ThenLoggedIn(SHARED, USING, 2);
  }

  lemma SharedReached()
    ensures Reaches(SHARED)
  {
    EnteredReached();
    SharingRuns();
    ThenCalm(ENTERED, SHARED);
  }

  // Thread 1 takes a token.

  function Held(pool: P.Pool, pc: P.Pc): P.State {
    Sessions(pool, [KMS_REF, WITH_REF], [MAIN_SLOT, TAKEN_SLOT], map[0 := P.Idle, 1 := pc, 2 := P.Idle])
  }

  const AWAITED := Held(Live(2, {}).(sema := BC.Counter(1, {}, {1}, false, false)), P.Token(0, 1, P.Getting))

  const TAKEN := State(Held(Live(2, {1}), TOKEN), Modules(2, 0, false, false), [KMS, WRAPPER],
                       map[0 := Free, 2 := Using(1, 1)], map[])

  lemma TokenRuns()
    ensures PM.From(USING.p, true, TAKEN.p)
  {
    PM.Begin(USING.p, true);
    assert BC.Do(Live(2, {}).sema, BC.Begin(1)) == BC.Counter(1, {}, {1}, false, false);
    PM.ThenGet(USING.p, true, USING.p, AWAITED, 1, 0);
    TokenTaken(USING.p);
  }

  lemma TokenTaken(p: P.State)
    requires PM.From(p, true, AWAITED)
    ensures PM.From(p, true, Held(Live(2, {1}), TOKEN))
  {
    assert BC.Do(BC.Counter(1, {}, {1}, false, false), BC.Take(1)) == Live(2, {1}).sema;
    PM.ThenTake(p, true, AWAITED, Held(Live(2, {1}), TOKEN), 1);
  }

  lemma TakenReached()
    ensures Reaches(TAKEN)
  {
    UsingReached();
    TokenRuns();
    ThenCalm(USING, TAKEN);
  }

  // The KMS closes; its Drop is not the last.

  function Later(pool: P.Pool, kms: P.Pc, wrapper: P.Pc, withDropped: bool): P.State {
    Sessions(pool, [KMS_REF.(dropped := true), WITH_REF.(dropped := withDropped)], [MAIN_SLOT, TAKEN_SLOT],
             map[0 := kms, 1 := TOKEN, 2 := wrapper])
  }

  const LEAVING_KMS := App(0, Leaving(0), Some(0), None)
  const GONE := App(0, Left, Some(0), Some(0))

  const CLOSING := State(Later(Live(2, {1}), P.Dec(0, 0, P.LoadDec), P.Idle, false), Modules(2, 0, false, false),
                         [LEAVING_KMS, WRAPPER], map[0 := Closing(0), 2 := Using(1, 1)], map[])

  const DROPPED := State(Later(Live(1, {1}), P.Returned(P.DropDone(true)), P.Idle, false), Modules(2, 0, false, false),
                         [LEAVING_KMS, WRAPPER], map[0 := Closing(0), 2 := Using(1, 1)], map[])

  const UNLOADING := State(Later(Live(1, {1}), P.Idle, P.Idle, false), Modules(2, 0, false, false),
                           [GONE, WRAPPER], map[0 := Unloading(0), 2 := Using(1, 1)], map[])

  const CLOSED := State(Later(Live(1, {1}), P.Idle, P.Idle, false), Modules(1, 0, true, false),
                        [GONE, WRAPPER], map[0 := Free, 2 := Using(1, 1)], map[])

  lemma ClosingReached()
    ensures Reaches(CLOSING)
  {
    TakenReached();
    ThenClose(TAKEN, CLOSING, 0, 0);
  }

  lemma ClosedReached()
    ensures Reaches(CLOSED)
  {
    UnloadingReached();
    KmsUnloads();
  }

  lemma UnloadingReached()
    ensures Reaches(UNLOADING)
  {
    DroppedReached();
    ThenClosed(DROPPED, UNLOADING, 0);
  }

  lemma DecrementRuns()
    ensures PM.From(CLOSING.p, true, DROPPED.p)
  {
    PM.Begin(CLOSING.p, true);
    PM.ThenDecrement(CLOSING.p, true, CLOSING.p, DROPPED.p, 0);
  }

  lemma DroppedReached()
    ensures Reaches(DROPPED)
  {
    ClosingReached();
    DecrementRuns();
    ThenCalm(CLOSING, DROPPED);
  }

  lemma KmsUnloads()
    requires Reaches(UNLOADING)
    ensures Reaches(CLOSED)
  {
    assert M.Settle(M.Mark(UNLOADING.c, 0).0, 0) == CLOSED.c by {
      assert [M.Ref(0, false, false), M.Ref(0, false, false)][0 := M.Ref(0, true, false)][0 := M.Ref(0, true, true)] == CLOSED.c.refs;
    }
    assert UNLOADING.tasks[0 := Free] == CLOSED.tasks;
    ThenUnload(UNLOADING, CLOSED, 0);
  }

  // The wrapper's Drop is the last, and does not drain.

  const LEAVING := State(Later(Live(1, {1}), P.Idle, P.Dec(1, 0, P.LoadDec), true), Modules(1, 0, true, false),
                         [GONE, WRAPPER], map[0 := Free, 2 := Returning(1)], map[])

  function Dying(closed: bool, loggedOut: bool, emptied: bool): P.Pool {
    Live(0, {1}).(shutdowns := 1, worker := Some(2), sema := BC.Counter(1, {1}, {}, closed, false), loggedOut := loggedOut,
                  emptied := emptied)
  }

  const SHUTTING := State(Later(Dying(false, false, false), P.Idle, P.Work(1, 0, P.Shutting), true), Modules(1, 0, true, false),
                          [GONE, WRAPPER], map[0 := Free, 2 := Returning(1)], map[0 := 1])

  const DEAD := Dying(true, true, true).(removed := true, dead := true, worker := None)

  const UNDRAINED := State(Later(DEAD, P.Idle, P.Returned(P.DropDone(false)), true).(cache := map[], open := {}, loggedIn := {}),
                           Modules(1, 0, true, false), [GONE, WRAPPER], map[0 := Free, 2 := Returning(1)], map[0 := 1])

  lemma LeavingReached()
    ensures Reaches(LEAVING)
  {
    ClosedReached();
    ThenEndCallback(CLOSED, LEAVING, 2);
  }

  lemma ShuttingReached()
    ensures Reaches(SHUTTING)
  {
    LeavingReached();
    var a := LEAVING.(p := Later(Live(1, {1}), P.Idle, P.Dec(1, 0, P.CasDec(1)), true));
    PM.Begin(LEAVING.p, true);
    PM.ThenLoadLast(LEAVING.p, true, LEAVING.p, a.p, 2);
    ThenCalm(LEAVING, a);
    LastSwap(a);
  }

  lemma LastSwap(a: State)
    requires Reaches(a) && a == LEAVING.(p := Later(Live(1, {1}), P.Idle, P.Dec(1, 0, P.CasDec(1)), true))
    ensures Reaches(SHUTTING)
  {
    ThenLastSwap(a, SHUTTING, 2);
  }

  lemma ShutdownRuns()
    ensures PM.From(SHUTTING.p, true, UNDRAINED.p)
  {
    var p := SHUTTING.p;
    PM.Begin(p, true);
    var a := Later(Dying(true, false, false), P.Idle, P.Work(1, 0, P.LoggingOut(false)), true);
    PM.ThenDrainFails(p, true, p, a, 2);
    ShutdownGoesOn(p, a);
  }

  lemma ShutdownGoesOn(p: P.State, a: P.State)
    requires PM.From(p, true, a) && a == Later(Dying(true, false, false), P.Idle, P.Work(1, 0, P.LoggingOut(false)), true)
    ensures PM.From(p, true, UNDRAINED.p)
  {
    var b := Later(Dying(true, true, false), P.Idle, P.Work(1, 0, P.ClosingAll(false)), true).(loggedIn := {});
    PM.ThenLogout(p, true, a, b, 2);
    ShutdownEnds(p, b);
  }

  lemma ShutdownEnds(p: P.State, b: P.State)
    requires PM.From(p, true, b)
    requires b == Later(Dying(true, true, false), P.Idle, P.Work(1, 0, P.ClosingAll(false)), true).(loggedIn := {})
    ensures PM.From(p, true, UNDRAINED.p)
  {
    assert P.SessionsOf(b, KEY) == {0};
    var c := Later(Dying(true, true, true), P.Idle, P.Work(1, 0, P.Removing(false)), true).(loggedIn := {}, open := {});
    PM.ThenCloseAll(p, true, b, c, 2);
    ShutdownRetires(p, c);
  }

  lemma ShutdownRetires(p: P.State, c: P.State)
    requires PM.From(p, true, c)
    requires c == Later(Dying(true, true, true), P.Idle, P.Work(1, 0, P.Removing(false)), true).(loggedIn := {}, open := {})
    ensures PM.From(p, true, UNDRAINED.p)
  {
    PM.ThenRetire(p, true, c, UNDRAINED.p, 2);
  }

  // `with` only logs the error; Finalize unloads the module.

  const EMPTIED := Later(DEAD, P.Idle, P.Idle, true).(cache := map[], open := {}, loggedIn := {})

  const FREED := State(EMPTIED, Modules(1, 0, true, false), [GONE, IDLE_WRAPPER], map[0 := Free, 2 := Free], map[0 := 1])

  const LEFT_WRAPPER := App(1, Left, None, Some(2))

  const FINALIZING := State(EMPTIED, Modules(1, 0, true, false), [GONE, LEFT_WRAPPER], map[0 := Free, 2 := Unloading(1)], map[0 := 1])

  const FINALIZED := State(EMPTIED, Modules(0, 1, true, true), [GONE, LEFT_WRAPPER], map[0 := Free, 2 := Free], map[0 := 1])

  lemma FreedReached()
    ensures Reaches(FREED)
  {
    UndrainedReached();
    assert Users(WRAPPER) - {2} == {};
    ThenLeave(UNDRAINED, FREED, 2);
  }

  lemma UndrainedReached()
    ensures Reaches(UNDRAINED)
  {
    ShuttingReached();
    ShutdownRuns();
    ThenCalm(SHUTTING, UNDRAINED);
  }

  lemma FinalizedReached()
    ensures Reaches(FINALIZED)
  {
    FreedReached();
    Then(FREED, CallFinalize(2, 1), FINALIZING);
    WrapperUnloads();
  }

  lemma WrapperUnloads()
    requires Reaches(FINALIZING)
    ensures Reaches(FINALIZED)
  {
    assert M.Settle(M.Mark(FINALIZING.c, 1).0, 1) == FINALIZED.c by {
      assert [M.Ref(0, true, true), M.Ref(0, false, false)][1 := M.Ref(0, true, false)][1 := M.Ref(0, true, true)] == FINALIZED.c.refs;
    }
    assert FINALIZING.tasks[2 := Free] == FINALIZED.tasks;
    ThenUnload(FINALIZING, FINALIZED, 2);
  }

  /** Thread 1 is about to call OpenSession on a library that was finalized and destroyed. */
  lemma SessionOnFinalizedModule() returns (s: State)
    ensures Reaches(s) && !s.p.wrapped && SF.Calls(P.PcOf(s.p, 1)) == Some(0) && Enabled(s, Pool(P.OpenTemp(1, true)))
    ensures |s.p.pools| == 1 && s.p.pools[0].mod == 0 && |s.c.libs| == 1
    ensures s.c.libs[0].finalized == 1 && !LS.Alive(s.c, 0)
    ensures SF.DrainFailed(s.p.pools[0]) && SF.ShutByWrapper(s, 0)
  {
    FinalizedReached();
    s := FINALIZED;
  }
}
