/** Every event of Lifetime keeps its invariant. */
module LifetimeSteps {
  import opened Common
  import opened Lifetime
  import P = PoolProtocol
  import PI = PoolInvariant
  import PS = PoolSteps
  import SF = PoolSafety
  import M = ModuleCache

  // ---- Alive modules ------------------------------------------------------------------------------------

  /** The library is the one in the module cache for its path, counted, and not finalized. */
  ghost predicate Alive(c: M.Contents, m: M.ModuleId) {
    m < |c.libs| && c.libs[m].refs > 0 && c.libs[m].path in c.cache && c.cache[c.libs[m].path] == m &&
    c.libs[m].finalized == 0 && c.libs[m].destroyed == 0
  }

  lemma HeldRefKeepsAlive(c: M.Contents, r: M.RefId)
    requires M.Valid(c) && r < |c.refs| && !c.refs[r].settled
    ensures Alive(c, c.refs[r].mod)
  {
    var m := c.refs[r].mod;
    assert r in M.Unsettled(c.refs, m);
    assert M.LibraryOk(c, m);
  }

  lemma ActiveModuleAlive(s: State, a: AppId)
    requires M.Valid(s.c) && Active(s, a)
    ensures Alive(s.c, ModOf(s, a).value)
  {
    HeldRefKeepsAlive(s.c, s.apps[a].mref);
  }

  /** A pool that is not removed from the cache is worked on, dropped or referred to by somebody
      whose instance holds a Ref to the pool's own module. */
  lemma CachedPoolModuleAlive(s: State, p: P.PoolId)
    requires M.Valid(s.c) && PI.Registry(s.p) && Glue(s) && p < |s.p.pools| && !s.p.pools[p].removed
    ensures Alive(s.c, s.p.pools[p].mod) && s.c.libs[s.p.pools[p].mod].path == s.p.pools[p].key.path
  {
    var pool := s.p.pools[p];
    assert PI.StageOk(pool, PI.WorkOf(pool, s.p.pcs)) && PoolOk(s, p);
    if pool.worker.Some? {
      var t := pool.worker.value;
      assert ThreadOk(s, t);
      ActiveModuleAlive(s, s.p.pcs[t].app);
    } else {
      assert PI.Count(pool.refs, s.p.prefs, s.p.pcs, p);
      if PI.Undropped(s.p.prefs, p) != {} {
        var r :| r in PI.Undropped(s.p.prefs, p);
        assert RefOk(s, r);
        ActiveModuleAlive(s, s.p.prefs[r].app);
      } else {
        assert PI.Dropping(s.p.pcs, p) != {};
        var t :| t in PI.Dropping(s.p.pcs, p);
        assert ThreadOk(s, t);
        ActiveModuleAlive(s, s.p.pcs[t].app);
      }
    }
  }

  // ---- Steps of the session layer ---------------------------------------------------------------------------

  /** What an inner step of the session layer does to its caller and to the references. */
  ghost predicate InnerStep(s: P.State, s': P.State, t: P.Thread) {
    var pc, pc' := P.PcOf(s, t), P.PcOf(s', t);
    && s'.pcs == s.pcs[t := pc']
    && (s'.prefs == s.prefs ||
        (Sponsor(pc).Some? && P.Known(s, t) && Entry(pc) &&
         s'.prefs == s.prefs + [P.Ref(P.Subject(pc).value, Sponsor(pc).value, P.PoolOf(s, t).pin, t, false)] &&
         pc' == P.Returned(P.LoggedIn(|s.prefs|))))
    && (pc'.Returned? && pc'.result.LoggedIn? ==> |s'.prefs| == |s.prefs| + 1)
    && (Sponsor(pc').Some? ==> Sponsor(pc) == Sponsor(pc') && Entry(pc) == Entry(pc') && SameSubject(s, pc, pc'))
    && (pc.Login? && pc'.Work? ==> |s'.pools| == |s.pools| + 1)
    && (pc.Returned? ==> pc.result.SessionDone?)
    && (s'.pools == s.pools || |s'.pools| == |s.pools| ||
        (pc.Login? && |s'.pools| == |s.pools| + 1 && s'.pools[|s.pools|].mod == pc.c.mod && s'.pools[|s.pools|].key == pc.c.key))
  }

  ghost predicate SameSubject(s: P.State, pc: P.Pc, pc': P.Pc) {
    match pc'
    case Login(c, _, _) => pc.Login? && pc.c == c
    case Work(_, p, _) => (pc.Login? && p == |s.pools|) || (pc.Work? && pc.p == p) || (pc.Dec? && pc.p == p)
    case Dec(_, p, _) => pc.Dec? && pc.p == p
    case _ => true
  }

  lemma InnerStepLogin(s: P.State, e: P.Event)
    requires P.Enabled(s, e) && Inner(s, e) && P.PcOf(s, e.t).Login? && !s.wrapped && !P.Apply(s, e).wrapped
    requires e.SwapRefs? ==> P.PoolOf(s, e.t).pin == P.PcOf(s, e.t).c.pin
    ensures InnerStep(s, P.Apply(s, e), e.t)
  {
  }

  lemma InnerStepSetUp(s: P.State, e: P.Event)
    requires P.Enabled(s, e) && Inner(s, e) && (e.OpenMain? || e.CloseMain? || e.Remove? || e.Bury?)
    ensures InnerStep(s, P.Apply(s, e), e.t)
  {
  }

  lemma InnerStepShutDown(s: P.State, e: P.Event)
    requires P.Enabled(s, e) && Inner(s, e) && P.PcOf(s, e.t).Work?
    requires !(e.LoginMain? || e.OpenMain? || e.CloseMain? || e.Remove? || e.Bury?)
    ensures InnerStep(s, P.Apply(s, e), e.t)
  {
  }

  lemma InnerStepLive(s: P.State, e: P.Event)
    requires P.Enabled(s, e) && Inner(s, e) && e.LoginMain?
    ensures InnerStep(s, P.Apply(s, e), e.t)
  {
  }

  lemma InnerStepDec(s: P.State, e: P.Event)
    requires P.Enabled(s, e) && Inner(s, e) && P.PcOf(s, e.t).Dec?
    ensures InnerStep(s, P.Apply(s, e), e.t)
  {
  }

  lemma InnerStepToken(s: P.State, e: P.Event)
    requires P.Enabled(s, e) && Inner(s, e) && P.PcOf(s, e.t).Token?
    ensures InnerStep(s, P.Apply(s, e), e.t)
  {
  }

  lemma InnerStepSession(s: P.State, e: P.Event)
    requires P.Enabled(s, e) && Inner(s, e) && (P.PcOf(s, e.t).Idle? || P.PcOf(s, e.t).Returned?)
    ensures InnerStep(s, P.Apply(s, e), e.t)
  {
  }

  lemma InnerStepAll(s: P.State, e: P.Event)
    requires P.Enabled(s, e) && Inner(s, e) && PI.Registry(s) && !s.wrapped && !P.Apply(s, e).wrapped
    ensures InnerStep(s, P.Apply(s, e), e.t)
  {
    match P.PcOf(s, e.t)
    case Login(_, _, _) =>
      assert PI.CallerOk(s.pools, s.prefs, s.pcs[e.t]);
      InnerStepLogin(s, e);
    case Work(_, _, _) =>
      if e.LoginMain? {
        InnerStepLive(s, e);
      } else if e.OpenMain? || e.CloseMain? || e.Remove? || e.Bury? {
        InnerStepSetUp(s, e);
      } else {
        InnerStepShutDown(s, e);
      }
    case Dec(_, _, _) => InnerStepDec(s, e);
    case Token(_, _, _) => InnerStepToken(s, e);
    case _ => InnerStepSession(s, e);
  }

  /** The pool a caller of Login comes to share has the caller's own module. */
  lemma SharedPoolModule(s: State, t: P.Thread, p: P.PoolId)
    requires M.Valid(s.c) && PI.Registry(s.p) && Glue(s) && ThreadOk(s, t)
    requires P.PcOf(s.p, t).Login? && p < |s.p.pools| && s.p.pools[p].key == P.PcOf(s.p, t).c.key && !s.p.pools[p].removed
    ensures s.p.pools[p].mod == P.PcOf(s.p, t).c.mod
  {
    CachedPoolModuleAlive(s, p);
    ActiveModuleAlive(s, P.PcOf(s.p, t).c.app);
  }

  /** A new reference is to a pool with the module of the instance it was taken for. */
  lemma NewRefModule(s: State, e: P.Event)
    requires M.Valid(s.c) && PI.Registry(s.p) && Glue(s) && P.Enabled(s.p, e) && Inner(s.p, e) && e.t in s.p.pcs
    requires !s.p.wrapped && !P.Apply(s.p, e).wrapped && |P.Apply(s.p, e).prefs| > |s.p.prefs|
    ensures var pc := P.PcOf(s.p, e.t);
            Sponsor(pc).Some? && P.Known(s.p, e.t) && P.PoolOf(s.p, e.t).mod == ModOf(s, Sponsor(pc).value).value
  {
    assert ThreadOk(s, e.t);
    NewRefOrigin(s.p, e);
    if P.PcOf(s.p, e.t).Login? {
      LoginPoolModule(s, e.t);
    }
  }

  /** A new reference comes from a thread inside Login that is at a counted, or at its own, pool. */
  lemma NewRefOrigin(s: P.State, e: P.Event)
    requires P.Enabled(s, e) && Inner(s, e) && PI.Registry(s) && !s.wrapped && !P.Apply(s, e).wrapped
    requires |P.Apply(s, e).prefs| > |s.prefs|
    ensures var pc := P.PcOf(s, e.t);
            Sponsor(pc).Some? && P.Known(s, e.t) && Entry(pc) &&
            if pc.Login? then P.PoolOf(s, e.t).refs > 0 && !pc.at.AwaitLive? else pc.Work?
  {
    InnerStepAll(s, e);
    if P.PcOf(s, e.t).Login? {
      assert PI.CallerOk(s.pools, s.prefs, s.pcs[e.t]);
    }
  }

  lemma LoginPoolModule(s: State, t: P.Thread)
    requires M.Valid(s.c) && PI.Registry(s.p) && Glue(s) && t in s.p.pcs && ThreadOk(s, t)
    requires P.Known(s.p, t) && s.p.pcs[t].Login? && P.PoolOf(s.p, t).refs > 0 && !s.p.pcs[t].at.AwaitLive?
    ensures P.PoolOf(s.p, t).mod == ModOf(s, s.p.pcs[t].c.app).value
  {
    var p := s.p.pcs[t].at.p;
    assert PI.CallerOk(s.p.pools, s.p.prefs, s.p.pcs[t]);
    assert PI.StageOk(s.p.pools[p], PI.WorkOf(s.p.pools[p], s.p.pcs));
    SharedPoolModule(s, t, p);
  }

  ghost predicate PoolsKeepModules(before: seq<P.Pool>, after: seq<P.Pool>) {
    |before| <= |after| && forall p :: 0 <= p < |before| ==> after[p].mod == before[p].mod && after[p].key == before[p].key
  }

  lemma GlueInnerOther(s: State, s': State, t: P.Thread, u: P.Thread)
    requires Glue(s) && s' == s.(p := s'.p, shutters := s'.shutters) && InnerStep(s.p, s'.p, t) && PoolsKeepModules(s.p.pools, s'.p.pools)
    requires u in s.p.pcs && u != t
    ensures ThreadOk(s', u)
  {
    assert ThreadOk(s, u);
  }

  lemma GlueInnerOwn(s: State, s': State, t: P.Thread)
    requires s' == s.(p := s'.p, shutters := s'.shutters) && InnerStep(s.p, s'.p, t) && PoolsKeepModules(s.p.pools, s'.p.pools)
    requires |s'.p.prefs| > |s.p.prefs| ==> P.Known(s.p, t)
    requires t in s.p.pcs ==> ThreadOk(s, t)
    ensures ThreadOk(s', t)
  {
  }

  lemma GlueInnerThread(s: State, s': State, t: P.Thread, u: P.Thread)
    requires Glue(s) && s' == s.(p := s'.p, shutters := s'.shutters) && InnerStep(s.p, s'.p, t) && PoolsKeepModules(s.p.pools, s'.p.pools)
    requires |s'.p.prefs| > |s.p.prefs| ==> P.Known(s.p, t)
    requires u in s'.p.pcs
    ensures ThreadOk(s', u)
  {
    if u == t {
      GlueInnerOwn(s, s', t);
    } else {
      GlueInnerOther(s, s', t, u);
    }
  }

  lemma GlueInnerRef(s: State, s': State, t: P.Thread, r: P.RefId)
    requires Glue(s) && s' == s.(p := s'.p, shutters := s'.shutters) && InnerStep(s.p, s'.p, t) && PoolsKeepModules(s.p.pools, s'.p.pools)
    requires t in s.p.pcs || |s'.p.prefs| == |s.p.prefs|
    requires |s'.p.prefs| > |s.p.prefs| ==>
      Sponsor(P.PcOf(s.p, t)).Some? && P.Known(s.p, t) &&
      P.PoolOf(s.p, t).mod == ModOf(s, Sponsor(P.PcOf(s.p, t)).value).value
    requires r < |s'.p.prefs|
    ensures RefOk(s', r)
  {
    if r < |s.p.prefs| {
      assert RefOk(s, r);
    } else {
      assert ThreadOk(s, t);
    }
  }

  lemma GlueInnerRest(s: State, s': State, t: P.Thread)
    requires Glue(s) && s' == s.(p := s'.p, shutters := s'.shutters) && InnerStep(s.p, s'.p, t) && PoolsKeepModules(s.p.pools, s'.p.pools)
    requires t in s.p.pcs || |s'.p.pools| == |s.p.pools|
    ensures forall u :: u in s'.tasks ==> TaskOk(s', u)
    ensures forall a :: 0 <= a < |s'.apps| ==> AppOk(s', a)
    ensures forall p :: 0 <= p < |s'.p.pools| ==> PoolOk(s', p)
  {
    forall u | u in s'.tasks ensures TaskOk(s', u) {
      assert TaskOk(s, u);
    }
    forall a | 0 <= a < |s'.apps| ensures AppOk(s', a) {
      assert AppOk(s, a);
    }
    forall p | 0 <= p < |s'.p.pools| ensures PoolOk(s', p) {
      if p < |s.p.pools| {
        assert PoolOk(s, p);
      } else {
        assert ThreadOk(s, t);
      }
    }
  }

  lemma GlueInner(s: State, e: Event)
    requires M.Valid(s.c) && PI.Registry(s.p) && Glue(s) && Enabled(s, e) && e.Pool?
    requires !s.p.wrapped && !Apply(s, e).p.wrapped
    ensures Glue(Apply(s, e))
  {
    var s', t := Apply(s, e), e.e.t;
    InnerStepAll(s.p, e.e);
    SF.StepEvolves(s.p, e.e);
    assert PoolsKeepModules(s.p.pools, s'.p.pools);
    if |s'.p.prefs| > |s.p.prefs| {
      NewRefModule(s, e.e);
    }
    GlueInnerRest(s, s', t);
    forall u | u in s'.p.pcs ensures ThreadOk(s', u) {
      GlueInnerThread(s, s', t, u);
    }
    forall r | 0 <= r < |s'.p.prefs| ensures RefOk(s', r) {
      GlueInnerRef(s, s', t, r);
    }
  }

  // ---- Steps of the instances ---------------------------------------------------------------------------------

  function About(task: Task): Option<AppId> {
    if task.Free? then None else Some(task.a)
  }

  ghost predicate SameRefs(c: M.Contents, c': M.Contents, changed: M.RefId) {
    && |c'.libs| == |c.libs| && (forall m :: 0 <= m < |c.libs| ==> c'.libs[m].path == c.libs[m].path)
    && |c'.refs| == |c.refs| && (forall q :: 0 <= q < |c.refs| ==> c'.refs[q].mod == c.refs[q].mod)
    && (forall q :: 0 <= q < |c.refs| && q != changed ==> c'.refs[q] == c.refs[q])
  }

  /** The reference is t's own, or the one field of a KMS. */
  ghost predicate OwnRef(s: State, t: P.Thread, r: P.RefId)
    requires r < |s.p.prefs|
  {
    s.p.prefs[r].taker == t || (s.p.prefs[r].app < |s.apps| && s.apps[s.p.prefs[r].app].stage.Ready?)
  }

  /** The step leaves the other threads that work for instance a as they were. */
  ghost predicate KeepsPeers(s: State, s': State, t: P.Thread, a: AppId)
    requires a < |s.apps| && a < |s'.apps|
  {
    var app, app' := s.apps[a], s'.apps[a];
    && (app.pref.Some? ==> app'.pref == app.pref)
    && ((app' == app && s'.c == s.c) ||
        match app.stage
        case Entering(u) => u == t
        case Leaving(u) => u == t
        case Ready(_) => true
        case Serving(users) =>
          users == {} ||
          (app'.stage.Serving? && s'.c == s.c && forall u :: u != t ==> (u in users <==> u in app'.stage.users))
        case Left => app' == app && app.dropper == Some(t))
  }

  /** The step concerns thread t and instance a only. */
  ghost predicate Local(s: State, s': State, t: P.Thread, a: AppId) {
    && KnownApp(s, a)
    && (About(TaskOf(s, t)).Some? ==> About(TaskOf(s, t)) == Some(a))
    && s'.tasks == s.tasks[t := TaskOf(s', t)]
    && (s'.p.pcs == s.p.pcs || s'.p.pcs == s.p.pcs[t := P.PcOf(s'.p, t)])
    && |s'.apps| == |s.apps| && s'.apps[a].mref == s.apps[a].mref
    && (forall b :: 0 <= b < |s.apps| && b != a ==> s'.apps[b] == s.apps[b])
    && s'.p.pools == s.p.pools
    && |s'.p.prefs| == |s.p.prefs|
    && (forall r :: 0 <= r < |s.p.prefs| ==>
          s'.p.prefs[r] == s.p.prefs[r] ||
          (s.p.prefs[r].app == a && OwnRef(s, t, r) && s'.p.prefs[r] == s.p.prefs[r].(dropped := true)))
    && SameRefs(s.c, s'.c, s.apps[a].mref)
    && KeepsPeers(s, s', t, a)
  }

  /** The instance an event of a thread, other than a step of the session layer, concerns. */
  function Subject(s: State, e: Event): AppId {
    if e.CallClose? || e.CallWith? || e.CallFinalize? then e.a
    else if !e.Pool? && !TaskOf(s, e.t).Free? then TaskOf(s, e.t).a
    else 0
  }

  lemma LocalThread(s: State, s': State, t: P.Thread, a: AppId, u: P.Thread)
    requires ThreadOk(s, u) && AppOk(s, a) && Local(s, s', t, a) && u != t && u in s.p.pcs
    ensures ThreadOk(s', u)
  {
  }

  lemma LocalRef(s: State, s': State, t: P.Thread, a: AppId, r: P.RefId)
    requires Glue(s) && Local(s, s', t, a) && r < |s.p.prefs| && (s.p.prefs[r].app == a ==> !OwnRef(s, t, r))
    ensures RefOk(s', r)
  {
    assert RefOk(s, r);
    assert AppOk(s, a);
  }

  lemma LocalTask(s: State, s': State, t: P.Thread, a: AppId, u: P.Thread)
    requires Glue(s) && Local(s, s', t, a) && u != t
    ensures TaskOk(s', u)
  {
    assert u in s.tasks ==> TaskOk(s, u);
    assert AppOk(s, a);
  }

  lemma LocalApp(s: State, s': State, t: P.Thread, a: AppId, b: AppId)
    requires Glue(s) && Local(s, s', t, a) && b < |s.apps| && b != a
    ensures AppOk(s', b)
  {
    assert AppOk(s, a) && AppOk(s, b);
  }

  /** The thread and its instance are as they should be. */
  ghost predicate OwnOk(s: State, s': State, t: P.Thread, a: AppId) {
    a < |s.apps| && ThreadOk(s', t) && TaskOk(s', t) && AppOk(s', a)
  }

  /** What remains to be shown of a local step: the thread, its instance and its own references. */
  lemma GlueLocal(s: State, s': State, t: P.Thread, a: AppId)
    requires Glue(s) && Local(s, s', t, a) && OwnOk(s, s', t, a)
    requires forall r :: 0 <= r < |s.p.prefs| && s.p.prefs[r].app == a && OwnRef(s, t, r) ==> RefOk(s', r)
    ensures Glue(s')
  {
    forall u | u in s'.p.pcs && u != t ensures ThreadOk(s', u) {
      assert ThreadOk(s, u) && AppOk(s, a);
      LocalThread(s, s', t, a, u);
    }
    forall r | 0 <= r < |s'.p.prefs| ensures RefOk(s', r) {
      if s.p.prefs[r].app != a || !OwnRef(s, t, r) {
        LocalRef(s, s', t, a, r);
      }
    }
    forall u | u in s'.tasks && u != t ensures TaskOk(s', u) {
      LocalTask(s, s', t, a, u);
    }
    forall b | 0 <= b < |s'.apps| && b != a ensures AppOk(s', b) {
      LocalApp(s, s', t, a, b);
    }
    forall p | 0 <= p < |s'.p.pools| ensures PoolOk(s', p) {
      assert PoolOk(s, p);
    }
  }

  /** What the invariant says of the thread, of its instance and of the reference it is about to drop. */
  ghost predicate OwnFacts(s: State, e: Event)
    requires Enabled(s, e) && !e.Pool? && !e.OpenModule?
  {
    && TaskOk(s, e.t) && AppOk(s, Subject(s, e)) && (e.t in s.p.pcs ==> ThreadOk(s, e.t))
    && (e.CallClose? ==> RefOk(s, s.apps[e.a].pref.value))
    && (e.WithDone? ==> RefOk(s, TaskOf(s, e.t).r))
  }

  lemma GlueOwn(s: State, e: Event)
    requires Glue(s) && Enabled(s, e) && !e.Pool? && !e.OpenModule?
    ensures OwnFacts(s, e)
  {
    assert e.t in s.tasks ==> TaskOk(s, e.t);
    assert AppOk(s, Subject(s, e));
  }

  // The events by what they do to the session layer: nothing, a call of Login, a call of Drop, or the
  // return from either.

  predicate Alone(e: Event) {
    e.NoToken? || e.Configured? || e.CallFinalize? || e.MarkModule? || e.SettleModule?
  }

  lemma AloneLocal(s: State, e: Event)
    requires Enabled(s, e) && Alone(e) && OwnFacts(s, e)
    ensures Local(s, Apply(s, e), e.t, Subject(s, e))
  {
  }

  lemma AloneOwn(s: State, e: Event)
    requires M.Valid(s.c) && Enabled(s, e) && Alone(e) && OwnFacts(s, e)
    ensures OwnOk(s, Apply(s, e), e.t, Subject(s, e))
  {
  }

  lemma AloneRef(s: State, e: Event, r: P.RefId)
    requires Enabled(s, e) && Alone(e) && OwnFacts(s, e)
    requires r < |s.p.prefs| && s.p.prefs[r].app == Subject(s, e) && RefOk(s, r) && OwnRef(s, e.t, r)
    ensures r < |Apply(s, e).p.prefs| && RefOk(Apply(s, e), r)
  {
  }

  lemma CallsLoginLocal(s: State, e: Event)
    requires Enabled(s, e) && (e.FoundToken? || e.CallWith?) && OwnFacts(s, e)
    ensures Local(s, Apply(s, e), e.t, Subject(s, e))
  {
  }

  lemma CallsLoginOwn(s: State, e: Event)
    requires Enabled(s, e) && (e.FoundToken? || e.CallWith?) && OwnFacts(s, e)
    ensures OwnOk(s, Apply(s, e), e.t, Subject(s, e))
  {
  }

  lemma CallsLoginRef(s: State, e: Event, r: P.RefId)
    requires Enabled(s, e) && (e.FoundToken? || e.CallWith?) && OwnFacts(s, e)
    requires r < |s.p.prefs| && s.p.prefs[r].app == Subject(s, e) && RefOk(s, r) && OwnRef(s, e.t, r)
    ensures r < |Apply(s, e).p.prefs| && RefOk(Apply(s, e), r)
  {
  }

  lemma CallCloseLocal(s: State, e: Event)
    requires Enabled(s, e) && e.CallClose? && OwnFacts(s, e)
    ensures Local(s, Apply(s, e), e.t, Subject(s, e))
  {
  }

  lemma WithDoneLocal(s: State, e: Event)
    requires Enabled(s, e) && e.WithDone? && OwnFacts(s, e)
    ensures Local(s, Apply(s, e), e.t, Subject(s, e))
  {
  }

  lemma CallsDropLocal(s: State, e: Event)
    requires Enabled(s, e) && (e.CallClose? || e.WithDone?) && OwnFacts(s, e)
    ensures Local(s, Apply(s, e), e.t, Subject(s, e))
  {
    if e.CallClose? {
      CallCloseLocal(s, e);
    } else {
      WithDoneLocal(s, e);
    }
  }

  lemma CallCloseOwn(s: State, e: Event)
    requires Enabled(s, e) && e.CallClose? && OwnFacts(s, e)
    ensures OwnOk(s, Apply(s, e), e.t, Subject(s, e))
  {
  }

  lemma WithDoneOwn(s: State, e: Event)
    requires Enabled(s, e) && e.WithDone? && OwnFacts(s, e)
    ensures OwnOk(s, Apply(s, e), e.t, Subject(s, e))
  {
  }

  lemma CallsDropOwn(s: State, e: Event)
    requires Enabled(s, e) && (e.CallClose? || e.WithDone?) && OwnFacts(s, e)
    ensures OwnOk(s, Apply(s, e), e.t, Subject(s, e))
  {
    if e.CallClose? {
      CallCloseOwn(s, e);
    } else {
      WithDoneOwn(s, e);
    }
  }

  lemma CallsDropRef(s: State, e: Event, r: P.RefId)
    requires Enabled(s, e) && (e.CallClose? || e.WithDone?) && OwnFacts(s, e)
    requires r < |s.p.prefs| && s.p.prefs[r].app == Subject(s, e) && RefOk(s, r) && OwnRef(s, e.t, r)
    ensures r < |Apply(s, e).p.prefs| && RefOk(Apply(s, e), r)
  {
  }

  lemma LoginReturnedLocal(s: State, e: Event)
    requires Enabled(s, e) && e.LoginReturned? && OwnFacts(s, e)
    ensures Local(s, Apply(s, e), e.t, Subject(s, e))
  {
  }

  lemma LoginReturnedOwn(s: State, e: Event)
    requires Enabled(s, e) && e.LoginReturned? && OwnFacts(s, e)
    ensures OwnOk(s, Apply(s, e), e.t, Subject(s, e))
  {
  }

  lemma OpenedRef(s: State, e: Event, r: P.RefId)
    requires Enabled(s, e) && e.LoginReturned? && TaskOf(s, e.t).LoggingIn? && OwnFacts(s, e)
    requires r < |s.p.prefs| && s.p.prefs[r].app == Subject(s, e) && RefOk(s, r) && OwnRef(s, e.t, r)
    ensures r < |Apply(s, e).p.prefs| && RefOk(Apply(s, e), r)
  {
  }

  lemma EnteredRef(s: State, e: Event, r: P.RefId)
    requires Enabled(s, e) && e.LoginReturned? && !TaskOf(s, e.t).LoggingIn? && OwnFacts(s, e)
    requires r < |s.p.prefs| && s.p.prefs[r].app == Subject(s, e) && RefOk(s, r) && OwnRef(s, e.t, r)
    ensures r < |Apply(s, e).p.prefs| && RefOk(Apply(s, e), r)
  {
  }

  lemma LoginReturnedRef(s: State, e: Event, r: P.RefId)
    requires Enabled(s, e) && e.LoginReturned? && OwnFacts(s, e)
    requires r < |s.p.prefs| && s.p.prefs[r].app == Subject(s, e) && RefOk(s, r) && OwnRef(s, e.t, r)
    ensures r < |Apply(s, e).p.prefs| && RefOk(Apply(s, e), r)
  {
    if TaskOf(s, e.t).LoggingIn? {
      OpenedRef(s, e, r);
    } else {
      EnteredRef(s, e, r);
    }
  }

  lemma ClosedLocal(s: State, e: Event)
    requires Enabled(s, e) && e.DropReturned? && TaskOf(s, e.t).Closing? && OwnFacts(s, e)
    ensures Local(s, Apply(s, e), e.t, Subject(s, e))
  {
  }

  lemma WithReturnedLocal(s: State, e: Event)
    requires Enabled(s, e) && e.DropReturned? && !TaskOf(s, e.t).Closing? && OwnFacts(s, e)
    ensures Local(s, Apply(s, e), e.t, Subject(s, e))
  {
  }

  lemma DropReturnedLocal(s: State, e: Event)
    requires Enabled(s, e) && e.DropReturned? && OwnFacts(s, e)
    ensures Local(s, Apply(s, e), e.t, Subject(s, e))
  {
    if TaskOf(s, e.t).Closing? {
      ClosedLocal(s, e);
    } else {
      WithReturnedLocal(s, e);
    }
  }

  lemma DropReturnedOwn(s: State, e: Event)
    requires Enabled(s, e) && e.DropReturned? && OwnFacts(s, e)
    ensures OwnOk(s, Apply(s, e), e.t, Subject(s, e))
  {
  }

  lemma ClosedRef(s: State, e: Event, r: P.RefId)
    requires Enabled(s, e) && e.DropReturned? && TaskOf(s, e.t).Closing? && TaskOk(s, e.t) && AppOk(s, Subject(s, e))
    requires r < |s.p.prefs| && s.p.prefs[r].app == Subject(s, e) && RefOk(s, r) && OwnRef(s, e.t, r)
    ensures r < |Apply(s, e).p.prefs| && RefOk(Apply(s, e), r)
  {
  }

  lemma WithReturnedRef(s: State, e: Event, r: P.RefId)
    requires Enabled(s, e) && e.DropReturned? && !TaskOf(s, e.t).Closing? && OwnFacts(s, e)
    requires r < |s.p.prefs| && s.p.prefs[r].app == Subject(s, e) && RefOk(s, r) && OwnRef(s, e.t, r)
    ensures r < |Apply(s, e).p.prefs| && RefOk(Apply(s, e), r)
  {
  }

  lemma DropReturnedRef(s: State, e: Event, r: P.RefId)
    requires Enabled(s, e) && e.DropReturned? && OwnFacts(s, e)
    requires r < |s.p.prefs| && s.p.prefs[r].app == Subject(s, e) && RefOk(s, r) && OwnRef(s, e.t, r)
    ensures r < |Apply(s, e).p.prefs| && RefOk(Apply(s, e), r)
  {
    if TaskOf(s, e.t).Closing? {
      ClosedRef(s, e, r);
    } else {
      WithReturnedRef(s, e, r);
    }
  }

  lemma LocalStep(s: State, e: Event)
    requires Enabled(s, e) && !e.Pool? && !e.OpenModule? && OwnFacts(s, e)
    ensures Local(s, Apply(s, e), e.t, Subject(s, e))
  {
    if Alone(e) {
      AloneLocal(s, e);
    } else if e.FoundToken? || e.CallWith? {
      CallsLoginLocal(s, e);
    } else if e.CallClose? || e.WithDone? {
      CallsDropLocal(s, e);
    } else if e.LoginReturned? {
      LoginReturnedLocal(s, e);
    } else {
      DropReturnedLocal(s, e);
    }
  }

  lemma OwnStep(s: State, e: Event)
    requires M.Valid(s.c) && Enabled(s, e) && !e.Pool? && !e.OpenModule? && OwnFacts(s, e)
    ensures OwnOk(s, Apply(s, e), e.t, Subject(s, e))
  {
    if Alone(e) {
      AloneOwn(s, e);
    } else if e.FoundToken? || e.CallWith? {
      CallsLoginOwn(s, e);
    } else if e.CallClose? || e.WithDone? {
      CallsDropOwn(s, e);
    } else if e.LoginReturned? {
      LoginReturnedOwn(s, e);
    } else {
      DropReturnedOwn(s, e);
    }
  }

  lemma RefStep(s: State, e: Event, r: P.RefId)
    requires Enabled(s, e) && !e.Pool? && !e.OpenModule? && OwnFacts(s, e)
    requires r < |s.p.prefs| && s.p.prefs[r].app == Subject(s, e) && RefOk(s, r) && OwnRef(s, e.t, r)
    ensures r < |Apply(s, e).p.prefs| && RefOk(Apply(s, e), r)
  {
    if Alone(e) {
      AloneRef(s, e, r);
    } else if e.FoundToken? || e.CallWith? {
      CallsLoginRef(s, e, r);
    } else if e.CallClose? || e.WithDone? {
      CallsDropRef(s, e, r);
    } else if e.LoginReturned? {
      LoginReturnedRef(s, e, r);
    } else {
      DropReturnedRef(s, e, r);
    }
  }

  lemma GlueInstance(s: State, e: Event)
    requires M.Valid(s.c) && Glue(s) && Enabled(s, e) && !e.Pool? && !e.OpenModule?
    ensures Glue(Apply(s, e))
  {
    var a := Subject(s, e);
    GlueOwn(s, e);
    LocalStep(s, e);
    OwnStep(s, e);
    forall r | 0 <= r < |s.p.prefs| && s.p.prefs[r].app == a && OwnRef(s, e.t, r) ensures RefOk(Apply(s, e), r) {
      RefStep(s, e, r);
    }
    GlueLocal(s, Apply(s, e), e.t, a);
  }

  /** Contents grow: old Refs and the paths of old libraries stay. */
  ghost predicate Grows(c: M.Contents, c': M.Contents) {
    && |c.libs| <= |c'.libs| && (forall m :: 0 <= m < |c.libs| ==> c'.libs[m].path == c.libs[m].path)
    && |c.refs| <= |c'.refs| && (forall r :: 0 <= r < |c.refs| ==> c'.refs[r] == c.refs[r])
  }

  /** An instance is added, and thread t, which was free, opens it. */
  ghost predicate Adds(s: State, s': State, t: P.Thread) {
    && TaskOf(s, t).Free? && s'.p == s.p && Grows(s.c, s'.c)
    && s'.tasks == s.tasks[t := Opening(|s.apps|)]
    && s'.apps == s.apps + [App(|s.c.refs|, Entering(t), None, None)]
    && KnownApp(s', |s.apps|) && !s'.c.refs[|s.c.refs|].dropped
  }

  lemma AddsKeepsThread(s: State, s': State, t: P.Thread, u: P.Thread)
    requires Glue(s) && Adds(s, s', t) && u in s.p.pcs
    ensures ThreadOk(s', u)
  {
    assert ThreadOk(s, u);
  }

  lemma AddsKeepsRef(s: State, s': State, t: P.Thread, r: P.RefId)
    requires Glue(s) && Adds(s, s', t) && r < |s.p.prefs|
    ensures RefOk(s', r)
  {
    assert RefOk(s, r);
  }

  lemma AddsKeepsTask(s: State, s': State, t: P.Thread, u: P.Thread)
    requires Glue(s) && Adds(s, s', t)
    ensures TaskOk(s', u)
  {
    assert u in s.tasks ==> TaskOk(s, u);
  }

  lemma AddsKeepsApp(s: State, s': State, t: P.Thread, a: AppId)
    requires Glue(s) && Adds(s, s', t) && a < |s'.apps|
    ensures AppOk(s', a)
  {
    if a < |s.apps| {
      assert AppOk(s, a) && s'.apps[a] == s.apps[a];
    }
    forall b | 0 <= b < |s.apps| ensures s'.apps[b].mref < |s.c.refs| {
      assert AppOk(s, b);
    }
  }

  lemma OpenAdds(s: State, e: Event)
    requires M.Valid(s.c) && Enabled(s, e) && e.OpenModule? && M.Open(s.c, e.path, e.loading).1.Some?
    ensures Adds(s, Apply(s, e), e.t)
  {
    M.OpenValid(s.c, e.path, e.loading);
    assert forall r :: 0 <= r < |s.c.refs| ==> Apply(s, e).c.refs[..|s.c.refs|][r] == Apply(s, e).c.refs[r];
  }

  lemma GlueOpenModule(s: State, e: Event)
    requires M.Valid(s.c) && Glue(s) && Enabled(s, e) && e.OpenModule?
    ensures Glue(Apply(s, e))
  {
    var s', t := Apply(s, e), e.t;
    M.OpenValid(s.c, e.path, e.loading);
    if M.Open(s.c, e.path, e.loading).1.None? {
      assert s' == s;
    } else {
      OpenAdds(s, e);
      forall u | u in s'.p.pcs ensures ThreadOk(s', u) {
        AddsKeepsThread(s, s', t, u);
      }
      forall r | 0 <= r < |s'.p.prefs| ensures RefOk(s', r) {
        AddsKeepsRef(s, s', t, r);
      }
      forall u | u in s'.tasks ensures TaskOk(s', u) {
        AddsKeepsTask(s, s', t, u);
      }
      forall a | 0 <= a < |s'.apps| ensures AppOk(s', a) {
        AddsKeepsApp(s, s', t, a);
      }
      forall p | 0 <= p < |s'.p.pools| ensures PoolOk(s', p) {
        assert PoolOk(s, p);
      }
    }
  }

  // ---- All events -----------------------------------------------------------------------------------------------

  lemma GlueStep(s: State, e: Event)
    requires Valid(s) && Enabled(s, e) && !Apply(s, e).p.wrapped && !s.p.wrapped
    ensures Glue(Apply(s, e))
  {
    if e.OpenModule? {
      GlueOpenModule(s, e);
    } else if e.Pool? {
      GlueInner(s, e);
    } else {
      GlueInstance(s, e);
    }
  }

  lemma SettlingRef(s: State, e: Event)
    requires Glue(s) && Enabled(s, e) && e.SettleModule?
    ensures var ref := s.c.refs[s.apps[TaskOf(s, e.t).a].mref]; ref.dropped && !ref.settled
  {
    assert TaskOk(s, e.t);
  }

  lemma ModulesStep(s: State, e: Event)
    requires Valid(s) && Enabled(s, e) && !s.p.wrapped
    ensures M.Valid(Apply(s, e).c)
  {
    if e.OpenModule? {
      M.OpenValid(s.c, e.path, e.loading);
    } else if e.MarkModule? {
      M.MarkValid(s.c, s.apps[TaskOf(s, e.t).a].mref);
    } else if e.SettleModule? {
      SettlingRef(s, e);
      M.SettleValid(s.c, s.apps[TaskOf(s, e.t).a].mref);
    } else {
      SameModules(s, e);
    }
  }

  lemma SameModules(s: State, e: Event)
    requires Enabled(s, e) && !e.OpenModule? && !e.MarkModule? && !e.SettleModule?
    ensures Apply(s, e).c == s.c
  {
  }

  function InnerEvent(s: State, e: Event): Option<P.Event>
    requires Enabled(s, e)
  {
    match e
    case FoundToken(t, login) => Some(P.CallLogin(t, CallOf(s, TaskOf(s, t).a, login)))
    case Pool(pe) => Some(pe)
    case LoginReturned(t) => Some(P.Finish(t))
    case CallClose(t, a) => Some(P.CallDrop(t, s.apps[a].pref.value))
    case DropReturned(t) => Some(P.Finish(t))
    case CallWith(t, a, login) => Some(P.CallLogin(t, CallOf(s, a, login)))
    case WithDone(t) => Some(P.CallDrop(t, TaskOf(s, t).r))
    case _ => None
  }

  /** Every event of the joint system is an event of the session layer or leaves that layer alone. */
  lemma PoolsStep(s: State, e: Event)
    requires Enabled(s, e)
    ensures match InnerEvent(s, e)
            case Some(pe) => P.Enabled(s.p, pe) && Apply(s, e).p == P.Apply(s.p, pe)
            case None => Apply(s, e).p == s.p
  {
  }

  lemma StepValid(s: State, e: Event)
    requires Valid(s) && Enabled(s, e)
    ensures Valid(Apply(s, e)) && (s.p.wrapped ==> Apply(s, e).p.wrapped)
  {
    PoolsStep(s, e);
    if InnerEvent(s, e).Some? {
      PS.StepValid(s.p, InnerEvent(s, e).value);
    }
    if !s.p.wrapped {
      ModulesStep(s, e);
      if !Apply(s, e).p.wrapped {
        GlueStep(s, e);
      }
    }
  }

  lemma {:induction false} ExecValid(s: State, es: seq<Event>)
    requires Valid(s) && Exec(s, es).Some?
    ensures Valid(Exec(s, es).value)
    decreases |es|
  {
    if es == [] {
    } else {
      StepValid(s, es[0]);
      ExecValid(Apply(s, es[0]), es[1..]);
    }
  }

  lemma {:induction false} WrappedStays(s: State, es: seq<Event>)
    requires Valid(s) && Exec(s, es).Some? && s.p.wrapped
    ensures Exec(s, es).value.p.wrapped
    decreases |es|
  {
    if es == [] {
    } else {
      StepValid(s, es[0]);
      WrappedStays(Apply(s, es[0]), es[1..]);
    }
  }
}
