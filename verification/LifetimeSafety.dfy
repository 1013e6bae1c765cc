/** Modules outlive pools: what Lifetime guarantees over every run of any number of instances. */
module LifetimeSafety {
  import opened Common
  import opened Lifetime
  import opened LifetimeShutters
  import opened LifetimeSteps
  import P = PoolProtocol
  import PI = PoolInvariant
  import M = ModuleCache

  ghost predicate Reaches(es: seq<Event>) {
    Exec(EMPTY, es).Some? && !Exec(EMPTY, es).value.p.wrapped
  }

  ghost function After(es: seq<Event>): State
    requires Reaches(es)
  {
    Exec(EMPTY, es).value
  }

  lemma ReachedValid(es: seq<Event>)
    requires Reaches(es)
    ensures var s := After(es);
            M.Valid(s.c) && PI.Registry(s.p) && PI.Tokens(s.p) && PI.Sessions(s.p) && Glue(s)
  {
    ExecValid(EMPTY, es);
  }

  lemma ReachedShut(es: seq<Event>)
    requires Reaches(es)
    ensures Shut(After(es))
  {
    ExecShut(EMPTY, es);
  }

  /** The module of every pool in the cache is the one the module cache holds for the pool's path;
      it is referenced, and neither finalized nor destroyed. Nothing is asked of the instance that
      created the pool: it may have dropped its own Ref long ago. */
  lemma ModuleOutlivesPool(es: seq<Event>, key: P.Key)
    requires Reaches(es) && key in After(es).p.cache
    ensures var s := After(es); var p := s.p.cache[key];
            p < |s.p.pools| && s.p.pools[p].key == key && Alive(s.c, s.p.pools[p].mod) &&
            s.c.libs[s.p.pools[p].mod].path == key.path
  {
    ReachedValid(es);
    CachedPoolModuleAlive(After(es), After(es).p.cache[key]);
  }

  /** The pool on whose library a thread is about to call. */
  function Calls(pc: P.Pc): Option<P.PoolId> {
    match pc
    case Work(_, p, work) =>
      if work.Opening? || work.LoggingIn? || work.Unwinding? || work.LoggingOut? || work.ClosingAll? then Some(p) else None
    case Token(p, _, token) => if token.Got? || token.ClosingSession? then Some(p) else None
    case _ => None
  }

  ghost predicate DrainFailed(pool: P.Pool) {
    pool.removed && !pool.sema.drained
  }

  lemma WorkerPoolCached(s: P.State, t: Thread)
    requires PI.Registry(s) && t in s.pcs && s.pcs[t].Work? && Calls(s.pcs[t]).Some?
    ensures s.pcs[t].p < |s.pools| && !s.pools[s.pcs[t].p].removed
  {
    var p := s.pcs[t].p;
    assert PI.StageOk(s.pools[p], PI.WorkOf(s.pools[p], s.pcs));
  }

  lemma TokenPoolNotDrained(s: P.State, t: Thread)
    requires PI.Registry(s) && PI.Tokens(s) && t in s.pcs && s.pcs[t].Token? && !s.pcs[t].token.Getting?
    ensures s.pcs[t].p < |s.pools| && s.pools[s.pcs[t].p].live && !s.pools[s.pcs[t].p].sema.drained
  {
    var p := s.pcs[t].p;
    assert PI.TokenOk(s.pools, s.slots, t, s.pcs[t]);
    assert PI.StageOk(s.pools[p], PI.WorkOf(s.pools[p], s.pcs));
  }

  /** If the last Drop of a pool was the Close of a KMS, the module stays alive until the pool is drained,
      and for ever if it never is: the KMS keeps its Ref. */
  lemma KmsKeepsUndrainedModule(es: seq<Event>, p: P.PoolId)
    requires Reaches(es) && p in After(es).shutters
    requires var s := After(es); var a := s.shutters[p]; a < |s.apps| && s.apps[a].pref.Some?
    ensures var s := After(es); p < |s.p.pools| && (!s.p.pools[p].sema.drained ==> Alive(s.c, s.p.pools[p].mod))
  {
    ReachedValid(es);
    ReachedShut(es);
    KmsHoldsRef(After(es), p, After(es).shutters[p]);
  }

  lemma KmsHoldsRef(s: State, p: P.PoolId, a: AppId)
    requires M.Valid(s.c) && Glue(s) && Shut(s) && ShutBy(s, p, a) && a < |s.apps| && s.apps[a].pref.Some?
    ensures p < |s.p.pools| && (!s.p.pools[p].sema.drained ==> Alive(s.c, s.p.pools[p].mod))
  {
    assert PoolShutOk(s, p) && KmsOk(s, a) && AppOk(s, a);
    if !s.p.pools[p].sema.drained {
      HeldRefKeepsAlive(s.c, s.apps[a].mref);
    }
  }

  /** The last Drop of the pool was the one in the `with` of a wrapper. */
  ghost predicate ShutByWrapper(s: State, p: P.PoolId) {
    p in s.shutters && s.shutters[p] < |s.apps| && s.apps[s.shutters[p]].pref.None?
  }

  /** A call into a library that is not loaded is one on a pool that was removed undrained, whose last
      Drop was a wrapper's. */
  lemma CallerReachesModule(s: State, t: Thread)
    requires M.Valid(s.c) && PI.Registry(s.p) && PI.Tokens(s.p) && Glue(s) && Shut(s) && Calls(P.PcOf(s.p, t)).Some?
    ensures var p := Calls(P.PcOf(s.p, t)).value;
            p < |s.p.pools| && (!Alive(s.c, s.p.pools[p].mod) ==> DrainFailed(s.p.pools[p]) && ShutByWrapper(s, p))
  {
    if s.p.pcs[t].Work? {
      WorkerPoolCached(s.p, t);
    } else {
      TokenPoolNotDrained(s.p, t);
    }
    PoolReachesModule(s, s.p.pcs[t].p);
  }

  lemma PoolReachesModule(s: State, p: P.PoolId)
    requires M.Valid(s.c) && PI.Registry(s.p) && Glue(s) && Shut(s) && p < |s.p.pools|
    requires s.p.pools[p].removed ==> s.p.pools[p].live && !s.p.pools[p].sema.drained
    ensures !Alive(s.c, s.p.pools[p].mod) ==> DrainFailed(s.p.pools[p]) && ShutByWrapper(s, p)
  {
    if !s.p.pools[p].removed {
      CachedPoolModuleAlive(s, p);
    } else {
      assert PI.StageOk(s.p.pools[p], PI.WorkOf(s.p.pools[p], s.p.pcs));
      assert PoolShutOk(s, p);
      if s.apps[s.shutters[p]].pref.Some? {
        KmsHoldsRef(s, p, s.shutters[p]);
      }
    }
  }

  /** GetToken, which Open calls before there is a pool, reaches a live module as well. */
  lemma OpeningReachesLiveModule(es: seq<Event>, t: Thread)
    requires Reaches(es) && TaskOf(After(es), t).Opening?
    ensures var s := After(es); var a := TaskOf(s, t).a;
            a < |s.apps| && ModOf(s, a).Some? && Alive(s.c, ModOf(s, a).value)
  {
    ReachedValid(es);
    var s := After(es);
    assert TaskOk(s, t) && AppOk(s, TaskOf(s, t).a);
    ActiveModuleAlive(s, TaskOf(s, t).a);
  }

  // ---- Close after a failed drain -------------------------------------------------------------------------

  /** The KMS is closed and no thread will ever drop its module Ref. */
  ghost predicate Leaked(s: State, a: AppId) {
    a < |s.apps| && s.apps[a].stage.Left? && s.apps[a].dropper.None? && s.apps[a].pref.Some?
  }

  lemma LeakedStep(s: State, e: Event, a: AppId)
    requires Glue(s) && Enabled(s, e) && Leaked(s, a)
    ensures Leaked(Apply(s, e), a)
  {
    if e.NoToken? || e.LoginReturned? || e.DropReturned? || e.Configured? {
      assert TaskOk(s, e.t);
    }
    assert AppOk(s, a);
  }

  lemma {:induction false} LeakedForever(s: State, es: seq<Event>, a: AppId)
    requires Valid(s) && Leaked(s, a) && Exec(s, es).Some? && !Exec(s, es).value.p.wrapped
    ensures Leaked(Exec(s, es).value, a)
    decreases |es|
  {
    if es == [] {
    } else {
      if s.p.wrapped {
        WrappedStays(s, es);
      }
      LeakedStep(s, es[0], a);
      StepValid(s, es[0]);
      LeakedForever(Apply(s, es[0]), es[1..], a);
    }
  }

  /** The KMS still answers for its pool, and the module of that pool is alive. */
  ghost predicate PoolModuleAlive(s: State, a: AppId) {
    PoolOfKms(s, a).Some? && PoolOfKms(s, a).value < |s.p.pools| && Alive(s.c, s.p.pools[PoolOfKms(s, a).value].mod)
  }

  lemma LeakedModuleAlive(s: State, es: seq<Event>, a: AppId)
    requires Valid(s) && !s.p.wrapped && Shut(s) && Leaked(s, a) && Exec(s, es).Some? && !Exec(s, es).value.p.wrapped
    ensures PoolModuleAlive(Exec(s, es).value, a)
  {
    LeakedForever(s, es, a);
    ExecValid(s, es);
    ExecShut(s, es);
    var s' := Exec(s, es).value;
    assert AppOk(s', a) && KmsOk(s', a);
    HeldRefKeepsAlive(s'.c, s'.apps[a].mref);
  }

  lemma CloseDecides(s: State, t: Thread)
    requires Glue(s) && Enabled(s, DropReturned(t)) && TaskOf(s, t).Closing?
    requires s.apps[TaskOf(s, t).a].stage == Leaving(t)
    ensures var a := TaskOf(s, t).a; var s' := Apply(s, DropReturned(t));
            if P.PcOf(s.p, t).result.clean then TaskOf(s', t) == Unloading(a) && s'.apps[a].dropper == Some(t)
            else Leaked(s', a)
  {
    assert AppOk(s, TaskOf(s, t).a);
  }

  /** The module of the instance's pool is alive after these further events. */
  ghost predicate Kept(s: State, later: seq<Event>, a: AppId) {
    Exec(s, later).Some? && !Exec(s, later).value.p.wrapped ==> PoolModuleAlive(Exec(s, later).value, a)
  }

  lemma LeakedKept(s: State, later: seq<Event>, a: AppId)
    requires Valid(s) && !s.p.wrapped && Shut(s) && Leaked(s, a)
    ensures Kept(s, later, a)
  {
    if Exec(s, later).Some? && !Exec(s, later).value.p.wrapped {
      LeakedModuleAlive(s, later, a);
    }
  }

  /** A clean Close goes on to drop the module Ref; a failed one keeps the module in every later state. */
  ghost predicate CloseOutcome(s: State, t: Thread, a: AppId, later: seq<Event>)
    requires Enabled(s, DropReturned(t)) && TaskOf(s, t) == Closing(a)
  {
    var s' := Apply(s, DropReturned(t));
    if P.PcOf(s.p, t).result.clean then TaskOf(s', t) == Unloading(a) && s'.apps[a].dropper == Some(t)
    else Kept(s', later, a)
  }

  lemma FinishKeepsRange(s: State, t: Thread)
    requires Enabled(s, DropReturned(t))
    ensures Apply(s, DropReturned(t)).p.wrapped == s.p.wrapped
  {
  }

  lemma CloseDecided(s: State, t: Thread, a: AppId, later: seq<Event>)
    requires Valid(s) && !s.p.wrapped && Shut(s) && Enabled(s, DropReturned(t)) && TaskOf(s, t) == Closing(a)
    requires s.apps[a].stage == Leaving(t)
    ensures CloseOutcome(s, t, a, later)
  {
    CloseDecides(s, t);
    if !P.PcOf(s.p, t).result.clean {
      FinishLeaked(s, t, a, later);
    }
  }

  lemma FinishLeaked(s: State, t: Thread, a: AppId, later: seq<Event>)
    requires Valid(s) && !s.p.wrapped && Shut(s) && Enabled(s, DropReturned(t)) && Leaked(Apply(s, DropReturned(t)), a)
    ensures Kept(Apply(s, DropReturned(t)), later, a)
  {
    FinishKeeps(s, t);
    LeakedKept(Apply(s, DropReturned(t)), later, a);
  }

  lemma FinishKeeps(s: State, t: Thread)
    requires Valid(s) && !s.p.wrapped && Shut(s) && Enabled(s, DropReturned(t))
    ensures var s' := Apply(s, DropReturned(t)); Valid(s') && !s'.p.wrapped && Shut(s')
  {
    StepValid(s, DropReturned(t));
    FinishKeepsRange(s, t);
    ShutStepValid(s, DropReturned(t));
  }

  /** Exactly when the Drop that Close called failed, Close keeps the module Ref, and then the
      module stays loaded in every later state. */
  lemma FailedCloseKeepsModule(es: seq<Event>, t: Thread, a: AppId, later: seq<Event>)
    requires Reaches(es) && Enabled(After(es), DropReturned(t)) && TaskOf(After(es), t) == Closing(a)
    requires After(es).apps[a].stage == Leaving(t)
    ensures CloseOutcome(After(es), t, a, later)
  {
    ExecValid(EMPTY, es);
    ReachedShut(es);
    CloseDecided(After(es), t, a, later);
  }

  // ---- What instances log in with --------------------------------------------------------------------------

  /** Open and with log in through the module of their own Ref, under that library's path, with the slot,
      the PIN and the token info they were given. */
  lemma LogsInAsConfigured(s: State, e: Event)
    requires Enabled(s, e) && (e.FoundToken? || e.CallWith?)
    ensures var a := if e.CallWith? then e.a else TaskOf(s, e.t).a;
            var s' := Apply(s, e); var pc := P.PcOf(s'.p, e.t);
            pc.Login? && pc.at.Lookup? && pc.seen == {} && pc.c.app == a && ModOf(s, a) == Some(pc.c.mod) &&
            pc.c.key.path == s.c.libs[pc.c.mod].path && pc.c.key.slot == e.login.slot &&
            pc.c.pin == e.login.pin && pc.c.info == e.login.info &&
            s'.p == s.p.(pcs := s.p.pcs[e.t := pc]) && s'.c == s.c
  {
  }
}
