/** Which instance's Drop was the last of a pool, and what becomes of its module Ref. */
module LifetimeShutters {
  import opened Common
  import opened Lifetime
  import opened LifetimeSteps
  import P = PoolProtocol
  import PI = PoolInvariant
  import PS = PoolSteps
  import SF = PoolSafety
  import M = ModuleCache

  // ---- The invariant --------------------------------------------------------------------------------

  ghost predicate ShutBy(s: State, p: P.PoolId, a: AppId) {
    p in s.shutters && s.shutters[p] == a
  }

  /** The pool of the PoolRef a KMS was opened with. */
  function PoolOfKms(s: State, a: AppId): Option<P.PoolId> {
    if a < |s.apps| && s.apps[a].pref.Some? && s.apps[a].pref.value < |s.p.prefs|
    then Some(s.p.prefs[s.apps[a].pref.value].pool) else None
  }

  /** A pool that was shut down stays at zero; a KMS shuts down no pool but its own. */
  ghost predicate PoolShutOk(s: State, p: P.PoolId) {
    p in s.shutters ==>
      && p < |s.p.pools| && s.p.pools[p].live && s.p.pools[p].refs == 0
      && var a := s.shutters[p];
         a < |s.apps| && !s.apps[a].stage.Entering? && (s.apps[a].pref.Some? ==> PoolOfKms(s, a) == Some(p))
  }

  ghost predicate WorkShutOk(s: State, t: Thread) {
    var pc := P.PcOf(s.p, t);
    pc.Work? && !Entry(pc) ==> ShutBy(s, pc.p, pc.app)
  }

  /** A KMS whose Drop was the last of its pool drops its module Ref only if that pool was drained. */
  ghost predicate KmsOk(s: State, a: AppId)
    requires a < |s.apps|
  {
    s.apps[a].pref.Some? ==>
      && PoolOfKms(s, a).Some?
      && var q := PoolOfKms(s, a).value;
         && q < |s.p.pools| && ModOf(s, a) == Some(s.p.pools[q].mod)
         && (s.apps[a].dropper.Some? && ShutBy(s, q, a) ==> s.p.pools[q].sema.drained)
         && (s.apps[a].stage.Leaving? ==> CloserOk(s, a, q, s.apps[a].stage.t))
  }

  /** Thread t closes KMS a, whose pool is q. */
  ghost predicate CloserOk(s: State, a: AppId, q: P.PoolId, t: Thread)
    requires q < |s.p.pools|
  {
    var pc := P.PcOf(s.p, t);
    && TaskOf(s, t) == Closing(a)
    && (Sponsor(pc) == Some(a) && (pc.Dec? || (pc.Work? && !Entry(pc))) ==> pc.p == q)
    && (pc == P.Returned(P.DropDone(true)) && ShutBy(s, q, a) ==> s.p.pools[q].sema.drained)
  }

  /** Every live pool at zero has an instance that shut it down. */
  ghost predicate ZerosShut(pools: seq<P.Pool>, shutters: map<P.PoolId, AppId>) {
    forall p :: 0 <= p < |pools| && pools[p].live && pools[p].refs == 0 ==> p in shutters
  }

  ghost predicate Shut(s: State) {
    && (forall p :: p in s.shutters ==> PoolShutOk(s, p))
    && ZerosShut(s.p.pools, s.shutters)
    && (forall t :: t in s.p.pcs ==> WorkShutOk(s, t))
    && (forall a :: 0 <= a < |s.apps| ==> KmsOk(s, a))
  }

  // ---- Steps of the session layer ---------------------------------------------------------------------

  /** No pool comes to zero in this step, except perhaps `but`. */
  ghost predicate NoNewZero(before: seq<P.Pool>, after: seq<P.Pool>, but: Option<P.PoolId>) {
    forall p :: 0 <= p < |after| && after[p].live && after[p].refs == 0 && but != Some(p) ==>
      p < |before| && before[p].live && before[p].refs == 0
  }

  lemma WorkNoNewZero(s: P.State, e: P.Event)
    requires P.Enabled(s, e) && P.PcOf(s, e.t).Work? && PI.StageOk(P.PoolOf(s, e.t), Some(P.PcOf(s, e.t).work))
    ensures NoNewZero(s.pools, P.Apply(s, e).pools, None)
  {
    if e.LoginMain? && e.ok {
      LiveNoNewZero(s, e);
    } else {
      PS.WorkTouches(s, e);
      PS.WorkKeepsCount(s, e);
    }
  }

  lemma LiveNoNewZero(s: P.State, e: P.Event)
    requires P.Enabled(s, e) && e.LoginMain? && e.ok && P.PoolOf(s, e.t).refs == 1
    ensures NoNewZero(s.pools, P.Apply(s, e).pools, None)
  {
  }

  lemma TokenNoNewZero(s: P.State, e: P.Event)
    requires P.Enabled(s, e) && P.PcOf(s, e.t).Token?
    ensures NoNewZero(s.pools, P.Apply(s, e).pools, None)
  {
  }

  lemma DecNoNewZero(s: P.State, e: P.Event)
    requires P.Enabled(s, e) && P.PcOf(s, e.t).Dec?
    ensures NoNewZero(s.pools, P.Apply(s, e).pools, if P.PcOf(P.Apply(s, e), e.t).Work? then Some(P.PcOf(s, e.t).p) else None)
  {
  }

  lemma LoginNoNewZero(s: P.State, e: P.Event)
    requires P.Enabled(s, e) && P.PcOf(s, e.t).Login?
    ensures NoNewZero(s.pools, P.Apply(s, e).pools, None)
  {
  }

  lemma CallNoNewZero(s: P.State, e: P.Event)
    requires P.Enabled(s, e) && Inner(s, e) && (P.PcOf(s, e.t).Idle? || P.PcOf(s, e.t).Returned?)
    ensures NoNewZero(s.pools, P.Apply(s, e).pools, None)
  {
  }

  /** A thread about to decrement finds a positive count. */
  lemma DecFindsReferences(s: P.State, t: Thread)
    requires PI.Registry(s) && t in s.pcs && s.pcs[t].Dec?
    ensures s.pcs[t].p < |s.pools| && s.pools[s.pcs[t].p].live && s.pools[s.pcs[t].p].refs > 0
  {
    var p := s.pcs[t].p;
    assert PI.CallerOk(s.pools, s.prefs, s.pcs[t]);
    assert PI.Count(s.pools[p].refs, s.prefs, s.pcs, p) && t in PI.Dropping(s.pcs, p);
  }

  /** How Drop goes on: a decrement that is not the last returns, the last begins the shutdown. */
  lemma DecMoves(s: P.State, e: P.Event)
    requires P.Enabled(s, e) && P.PcOf(s, e.t).Dec? && P.PoolOf(s, e.t).refs > 0
    ensures var Dec(app, p, _) := P.PcOf(s, e.t); var s' := P.Apply(s, e); var pc := P.PcOf(s', e.t);
            if pc.Work? then e.SwapRefs? && pc == P.Work(app, p, P.Shutting) && s'.pools[p].refs == 0
            else (pc.Dec? && pc.app == app && pc.p == p) || pc == P.Returned(P.DropDone(true))
  {
  }

  /** Drop returns without an error only after its pool was drained. */
  lemma WorkMoves(s: P.State, e: P.Event)
    requires P.Enabled(s, e) && P.PcOf(s, e.t).Work?
    requires PI.StageOk(P.PoolOf(s, e.t), Some(P.PcOf(s, e.t).work))
    ensures var pc, pc' := P.PcOf(s, e.t), P.PcOf(P.Apply(s, e), e.t);
            (pc' == P.Returned(P.DropDone(true)) ==> !Entry(pc) && P.PoolOf(s, e.t).sema.drained)
  {
  }

  lemma LoginReturnsNoDrop(s: P.State, e: P.Event)
    requires P.Enabled(s, e) && Inner(s, e) && !P.PcOf(s, e.t).Dec? && !P.PcOf(s, e.t).Work?
    ensures var pc := P.PcOf(P.Apply(s, e), e.t); !(pc.Returned? && pc.result.DropDone?) && !pc.Dec?
    ensures P.PcOf(P.Apply(s, e), e.t).Work? ==> P.PcOf(P.Apply(s, e), e.t).work.Opening?
  {
  }

  /** What an inner step of thread t means for shutdowns. */
  ghost predicate ShutStep(s: State, s': State, t: Thread) {
    var pc, pc' := P.PcOf(s.p, t), P.PcOf(s'.p, t);
    && s' == s.(p := s'.p, shutters := s'.shutters)
    && s'.p.pcs == s.p.pcs[t := pc']
    && |s.p.prefs| <= |s'.p.prefs| && s'.p.prefs[..|s.p.prefs|] == s.p.prefs
    && PI.Evolves(s.p.pools, s'.p.pools)
    && NoNewZero(s.p.pools, s'.p.pools, if pc.Dec? && pc'.Work? then Some(pc.p) else None)
    && (if pc.Dec? && pc'.Work?
        then s'.shutters == s.shutters[pc.p := pc.app] && pc' == P.Work(pc.app, pc.p, P.Shutting) && pc.p < |s.p.pools| &&
             s.p.pools[pc.p].live && s'.p.pools[pc.p].refs == 0
        else s'.shutters == s.shutters)
    && (pc.Dec? ==> pc.p < |s.p.pools| && s.p.pools[pc.p].refs > 0)
    && (pc'.Dec? ==> pc.Dec? && pc'.app == pc.app && pc'.p == pc.p)
    && (pc'.Work? && pc.Work? ==> pc'.app == pc.app && pc'.p == pc.p && Entry(pc') == Entry(pc))
    && (pc'.Work? && !pc.Work? && !pc.Dec? ==> Entry(pc'))
    && (pc' == P.Returned(P.DropDone(true)) ==>
          pc.Dec? || (pc.Work? && !Entry(pc) && pc.p < |s.p.pools| && s.p.pools[pc.p].sema.drained))
  }

  lemma DecShutStep(s: State, e: Event)
    requires PI.Registry(s.p) && Enabled(s, e) && e.Pool? && P.PcOf(s.p, e.e.t).Dec?
    requires InnerStep(s.p, Apply(s, e).p, e.e.t) && PI.Evolves(s.p.pools, Apply(s, e).p.pools)
    ensures ShutStep(s, Apply(s, e), e.e.t)
  {
    DecFindsReferences(s.p, e.e.t);
    DecMoves(s.p, e.e);
    DecNoNewZero(s.p, e.e);
  }

  lemma WorkShutStep(s: State, e: Event)
    requires PI.Registry(s.p) && Enabled(s, e) && e.Pool? && P.PcOf(s.p, e.e.t).Work?
    requires InnerStep(s.p, Apply(s, e).p, e.e.t) && PI.Evolves(s.p.pools, Apply(s, e).p.pools)
    ensures ShutStep(s, Apply(s, e), e.e.t)
  {
    PS.WorkerStage(s.p, e.e.t);
    WorkMoves(s.p, e.e);
    WorkNoNewZero(s.p, e.e);
    WorkShut(s, Apply(s, e), e.e.t);
  }

  lemma WorkShut(s: State, s': State, t: Thread)
    requires P.PcOf(s.p, t).Work? && P.Known(s.p, t) && s' == s.(p := s'.p)
    requires InnerStep(s.p, s'.p, t) && PI.Evolves(s.p.pools, s'.p.pools)
    requires NoNewZero(s.p.pools, s'.p.pools, None)
    requires P.PcOf(s'.p, t) == P.Returned(P.DropDone(true)) ==> !Entry(P.PcOf(s.p, t)) && P.PoolOf(s.p, t).sema.drained
    ensures ShutStep(s, s', t)
  {
  }

  lemma CallerShutStep(s: State, e: Event)
    requires Enabled(s, e) && e.Pool? && !P.PcOf(s.p, e.e.t).Dec? && !P.PcOf(s.p, e.e.t).Work?
    requires InnerStep(s.p, Apply(s, e).p, e.e.t) && PI.Evolves(s.p.pools, Apply(s, e).p.pools)
    ensures ShutStep(s, Apply(s, e), e.e.t)
  {
    LoginReturnsNoDrop(s.p, e.e);
    if P.PcOf(s.p, e.e.t).Token? {
      TokenNoNewZero(s.p, e.e);
    } else if P.PcOf(s.p, e.e.t).Login? {
      LoginNoNewZero(s.p, e.e);
    } else {
      CallNoNewZero(s.p, e.e);
    }
  }

  lemma InnerShutStep(s: State, e: Event)
    requires PI.Registry(s.p) && Enabled(s, e) && e.Pool? && !s.p.wrapped && !Apply(s, e).p.wrapped
    ensures ShutStep(s, Apply(s, e), e.e.t)
  {
    InnerStepAll(s.p, e.e);
    SF.StepEvolves(s.p, e.e);
    if P.PcOf(s.p, e.e.t).Dec? {
      DecShutStep(s, e);
    } else if P.PcOf(s.p, e.e.t).Work? {
      WorkShutStep(s, e);
    } else {
      CallerShutStep(s, e);
    }
  }

  lemma ShutInnerPool(s: State, s': State, t: Thread, p: P.PoolId)
    requires Glue(s) && Shut(s) && ShutStep(s, s', t) && p in s'.shutters
    ensures PoolShutOk(s', p)
  {
    var pc := P.PcOf(s.p, t);
    if p in s.shutters {
      assert PoolShutOk(s, p);
    }
    if pc.Dec? && p == pc.p && P.PcOf(s'.p, t).Work? {
      assert ThreadOk(s, t) && AppOk(s, pc.app) && KmsOk(s, pc.app);
    }
  }

  lemma ShutInnerWork(s: State, s': State, t: Thread, u: Thread)
    requires Shut(s) && ShutStep(s, s', t) && u in s'.p.pcs
    ensures WorkShutOk(s', u)
  {
    assert u in s.p.pcs ==> WorkShutOk(s, u);
    var pc := P.PcOf(s.p, u);
    if u in s.p.pcs && pc.Work? && !Entry(pc) {
      assert PoolShutOk(s, pc.p);
    }
  }

  lemma ShutInnerKms(s: State, s': State, t: Thread, a: AppId)
    requires Glue(s) && Shut(s) && ShutStep(s, s', t) && a < |s.apps|
    ensures KmsOk(s', a)
  {
    assert KmsOk(s, a) && AppOk(s, a);
    assert t in s.p.pcs ==> ThreadOk(s, t) && WorkShutOk(s, t);
    if s.apps[a].pref.Some? {
      var q := PoolOfKms(s, a).value;
      assert q in s.shutters ==> PoolShutOk(s, q);
      KmsKept(s, s', t, a, q);
    }
  }

  lemma KmsKept(s: State, s': State, t: Thread, a: AppId, q: P.PoolId)
    requires ShutStep(s, s', t) && a < |s.apps| && KmsOk(s, a) && AppOk(s, a) && PoolOfKms(s, a) == Some(q)
    requires t in s.p.pcs ==> ThreadOk(s, t) && WorkShutOk(s, t)
    requires q in s.shutters ==> PoolShutOk(s, q)
    ensures KmsOk(s', a)
  {
    assert s'.p.prefs[s.apps[a].pref.value] == s'.p.prefs[..|s.p.prefs|][s.apps[a].pref.value];
  }

  lemma ShutInner(s: State, e: Event)
    requires PI.Registry(s.p) && Glue(s) && Shut(s) && Enabled(s, e) && e.Pool? && !s.p.wrapped && !Apply(s, e).p.wrapped
    ensures Shut(Apply(s, e))
  {
    var s', t := Apply(s, e), e.e.t;
    InnerShutStep(s, e);
    forall p | p in s'.shutters ensures PoolShutOk(s', p) {
      ShutInnerPool(s, s', t, p);
    }
    forall u | u in s'.p.pcs ensures WorkShutOk(s', u) {
      ShutInnerWork(s, s', t, u);
    }
    forall a | 0 <= a < |s'.apps| ensures KmsOk(s', a) {
      ShutInnerKms(s, s', t, a);
    }
  }

  // ---- Steps of the instances ---------------------------------------------------------------------------

  lemma ShutLocal(s: State, s': State, t: Thread, a: AppId)
    requires Shut(s) && Local(s, s', t, a) && s'.shutters == s.shutters
    requires About(TaskOf(s, t)) == Some(a) || TaskOf(s, t).Free?
    requires !P.PcOf(s'.p, t).Work? && KmsOk(s', a)
    requires s.apps[a].stage.Entering? || (!s'.apps[a].stage.Entering? && (s'.apps[a].pref.Some? ==> s'.apps[a].pref == s.apps[a].pref))
    ensures Shut(s')
  {
    forall p | p in s'.shutters ensures PoolShutOk(s', p) {
      assert PoolShutOk(s, p);
    }
    forall u | u in s'.p.pcs ensures WorkShutOk(s', u) {
      assert u in s.p.pcs ==> WorkShutOk(s, u);
    }
    forall b | 0 <= b < |s'.apps| ensures KmsOk(s', b) {
      if b != a {
        assert KmsOk(s, b);
      }
    }
  }

  lemma KmsLogin(s: State, e: Event)
    requires Glue(s) && Enabled(s, e) && e.LoginReturned? && Subject(s, e) < |s.apps|
    ensures KmsOk(Apply(s, e), Subject(s, e))
  {
    assert TaskOk(s, e.t) && ThreadOk(s, e.t) && AppOk(s, Subject(s, e));
    if P.PcOf(s.p, e.t).result.LoggedIn? {
      assert RefOk(s, P.PcOf(s.p, e.t).result.r);
    }
  }

  lemma KmsClose(s: State, e: Event)
    requires Glue(s) && Enabled(s, e) && e.CallClose? && Subject(s, e) < |s.apps| && KmsOk(s, Subject(s, e))
    ensures KmsOk(Apply(s, e), Subject(s, e))
  {
    assert AppOk(s, Subject(s, e));
  }

  lemma KmsDrop(s: State, e: Event)
    requires Enabled(s, e) && e.DropReturned? && Subject(s, e) < |s.apps| && KmsOk(s, Subject(s, e))
    requires TaskOk(s, e.t) && AppOk(s, Subject(s, e))
    ensures KmsOk(Apply(s, e), Subject(s, e))
  {
  }

  lemma KmsModule(s: State, e: Event)
    requires M.Valid(s.c) && Glue(s) && Enabled(s, e) && (e.MarkModule? || e.SettleModule?)
    requires Subject(s, e) < |s.apps| && KmsOk(s, Subject(s, e))
    ensures KmsOk(Apply(s, e), Subject(s, e))
  {
    assert TaskOk(s, e.t) && AppOk(s, Subject(s, e));
  }

  lemma KmsElse(s: State, e: Event)
    requires Glue(s) && Enabled(s, e) && Subject(s, e) < |s.apps| && KmsOk(s, Subject(s, e))
    requires e.NoToken? || e.FoundToken? || e.Configured? || e.CallWith? || e.WithDone? || e.CallFinalize?
    ensures KmsOk(Apply(s, e), Subject(s, e))
  {
    assert AppOk(s, Subject(s, e));
    if !e.CallWith? && !e.CallFinalize? {
      assert TaskOk(s, e.t);
    }
  }

  lemma KmsStep(s: State, e: Event)
    requires M.Valid(s.c) && Glue(s) && Shut(s) && Enabled(s, e) && !e.Pool? && !e.OpenModule?
    ensures Subject(s, e) < |s.apps| && KmsOk(Apply(s, e), Subject(s, e))
  {
    GlueOwn(s, e);
    assert KmsOk(s, Subject(s, e));
    match e
    case LoginReturned(_) => KmsLogin(s, e);
    case CallClose(_, _) => KmsClose(s, e);
    case DropReturned(_) => KmsDrop(s, e);
    case MarkModule(_) => KmsModule(s, e);
    case SettleModule(_) => KmsModule(s, e);
    case _ => KmsElse(s, e);
  }

  /** No instance begins to enter, and none but one that enters gets a pool. */
  lemma StageMoves(s: State, e: Event)
    requires Enabled(s, e) && !e.Pool? && !e.OpenModule? && Subject(s, e) < |s.apps|
    requires e.LoginReturned? ==> TaskOk(s, e.t)
    ensures var s' := Apply(s, e); var a := Subject(s, e);
            |s'.apps| == |s.apps| &&
            (s.apps[a].stage.Entering? ||
             (!s'.apps[a].stage.Entering? && (s'.apps[a].pref.Some? ==> s'.apps[a].pref == s.apps[a].pref)))
  {
  }

  lemma SubjectMoves(s: State, e: Event)
    requires Enabled(s, e) && !e.Pool? && !e.OpenModule?
    ensures Apply(s, e).shutters == s.shutters
    ensures About(TaskOf(s, e.t)) == Some(Subject(s, e)) || TaskOf(s, e.t).Free?
  {
  }

  /** Between its calls of Login and Drop a thread is no worker of a pool. */
  lemma SubjectIdle(s: State, e: Event)
    requires Enabled(s, e) && !e.Pool? && !e.OpenModule? && ThreadOk(s, e.t)
    ensures !P.PcOf(Apply(s, e).p, e.t).Work?
  {
    PoolsStep(s, e);
    if InnerEvent(s, e).Some? {
      CallsIdle(s.p, InnerEvent(s, e).value);
    } else {
      assert !P.PcOf(s.p, e.t).Work?;
    }
  }

  lemma CallsIdle(s: P.State, e: P.Event)
    requires P.Enabled(s, e) && (e.CallLogin? || e.CallDrop? || e.Finish?)
    ensures !P.PcOf(P.Apply(s, e), e.t).Work?
  {
  }

  lemma ShutInstance(s: State, e: Event)
    requires M.Valid(s.c) && Glue(s) && Shut(s) && Enabled(s, e) && !e.Pool? && !e.OpenModule?
    ensures Shut(Apply(s, e))
  {
    GlueOwn(s, e);
    LocalStep(s, e);
    KmsStep(s, e);
    StageMoves(s, e);
    SubjectMoves(s, e);
    SubjectIdle(s, e);
    ShutLocal(s, Apply(s, e), e.t, Subject(s, e));
  }

  lemma ShutAdds(s: State, s': State, t: Thread)
    requires Glue(s) && Shut(s) && Adds(s, s', t) && s'.shutters == s.shutters
    ensures Shut(s')
  {
    forall p | p in s'.shutters ensures PoolShutOk(s', p) {
      assert PoolShutOk(s, p);
    }
    forall u | u in s'.p.pcs ensures WorkShutOk(s', u) {
      assert WorkShutOk(s, u);
    }
    forall a | 0 <= a < |s'.apps| ensures KmsOk(s', a) {
      if a < |s.apps| {
        assert KmsOk(s, a) && AppOk(s, a);
      }
    }
  }

  lemma ShutOpenModule(s: State, e: Event)
    requires M.Valid(s.c) && Glue(s) && Shut(s) && Enabled(s, e) && e.OpenModule?
    ensures Shut(Apply(s, e))
  {
    if M.Open(s.c, e.path, e.loading).1.None? {
      M.OpenValid(s.c, e.path, e.loading);
      assert Apply(s, e) == s;
    } else {
      OpenAdds(s, e);
      ShutAdds(s, Apply(s, e), e.t);
    }
  }

  lemma ShutStepValid(s: State, e: Event)
    requires Valid(s) && !s.p.wrapped && Shut(s) && Enabled(s, e) && !Apply(s, e).p.wrapped
    ensures Shut(Apply(s, e))
  {
    if e.Pool? {
      ShutInner(s, e);
    } else if e.OpenModule? {
      ShutOpenModule(s, e);
    } else {
      ShutInstance(s, e);
    }
  }

  lemma {:induction false} ExecShut(s: State, es: seq<Event>)
    requires Valid(s) && Shut(s) && Exec(s, es).Some? && !Exec(s, es).value.p.wrapped && !s.p.wrapped
    ensures Shut(Exec(s, es).value)
    decreases |es|
  {
    if es == [] {
    } else {
      var s' := Apply(s, es[0]);
      StepValid(s, es[0]);
      if s'.p.wrapped {
        WrappedStays(s', es[1..]);
      } else {
        ShutStepValid(s, es[0]);
        ExecShut(s', es[1..]);
      }
    }
  }
}
