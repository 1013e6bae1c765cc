/** Every event of PoolProtocol keeps the invariant of PoolInvariant. */
module PoolSteps {
  import opened Common
  import opened PoolProtocol
  import opened PoolInvariant
  import BC = BoundedCounter

  lemma SamePools(pools: seq<Pool>)
    ensures Evolves(pools, pools)
  {
  }

  lemma OnePoolEvolves(pools: seq<Pool>, p: PoolId, pool: Pool)
    requires p < |pools| && PoolEvolves(pools[p], pool)
    ensures Evolves(pools, pools[p := pool])
  {
  }

  lemma CachedKept(pools: seq<Pool>, cache: map<Key, PoolId>, p: PoolId, pool: Pool)
    requires Cached(pools, cache) && p < |pools| && pool.key == pools[p].key && pool.removed == pools[p].removed
    ensures Cached(pools[p := pool], cache)
  {
  }

  lemma ReferencesKept(pools: seq<Pool>, pools': seq<Pool>, prefs: seq<Ref>)
    requires References(pools, prefs) && Evolves(pools, pools')
    ensures References(pools', prefs)
  {
  }

  lemma CountsMove(pools: seq<Pool>, prefs: seq<Ref>, pcs: map<Thread, Pc>, t: Thread, pc: Pc)
    requires Counts(pools, prefs, pcs)
    requires !pc.Dec? && (t in pcs ==> !pcs[t].Dec?)
    ensures Counts(pools, prefs, pcs[t := pc])
  {
    forall p | 0 <= p < |pools| && pools[p].live ensures Count(pools[p].refs, prefs, pcs[t := pc], p) {
      assert Count(pools[p].refs, prefs, pcs, p);
      DroppingMove(pcs, t, pc, p);
    }
  }

  lemma CountsKept(pools: seq<Pool>, prefs: seq<Ref>, pcs: map<Thread, Pc>, p: PoolId, pool: Pool)
    requires Counts(pools, prefs, pcs) && p < |pools|
    requires pool.live == pools[p].live && (pool.live ==> pool.refs == pools[p].refs)
    ensures Counts(pools[p := pool], prefs, pcs)
  {
  }

  // ---- Events that only move the caller ---------------------------------------------------------

  lemma RegistryMoves(s: State, s': State, t: Thread, pc: Pc)
    requires Registry(s)
    requires s'.pools == s.pools && s'.cache == s.cache && s'.prefs == s.prefs && s'.panicked == s.panicked
    requires s'.pcs == s.pcs[t := pc]
    requires !PcOf(s, t).Work? && !pc.Work? && !PcOf(s, t).Dec? && !pc.Dec?
    requires CallerOk(s.pools, s.prefs, pc)
    ensures Registry(s')
  {
    SamePools(s.pools);
    OthersMove(s.pools, s.pcs, t, pc);
    CallersMove(s.pools, s.pools, s.prefs, s.prefs, s.pcs, t, pc);
    CountsMove(s.pools, s.prefs, s.pcs, t, pc);
  }

  lemma RegistryLogin(s: State, e: Event)
    requires Registry(s) && Enabled(s, e)
    requires e.CallLogin? || e.SeeLive? || e.SeeDead? || (e.GiveUp? && PcOf(s, e.t).Login?) || e.Finish? ||
             (e.LoadRefs? && PcOf(s, e.t).Login?)
    ensures Registry(Apply(s, e))
  {
    if e.t in s.pcs {
      assert CallerOk(s.pools, s.prefs, s.pcs[e.t]);
    }
    RegistryMoves(s, Apply(s, e), e.t, PcOf(Apply(s, e), e.t));
  }

  lemma RegistryLoadDec(s: State, e: Event)
    requires Registry(s) && Enabled(s, e) && e.LoadRefs? && PcOf(s, e.t).Dec?
    ensures Registry(Apply(s, e)) && PcOf(Apply(s, e), e.t).Dec?
  {
    var t, p := e.t, PcOf(s, e.t).p;
    assert CallerOk(s.pools, s.prefs, s.pcs[t]) && Count(s.pools[p].refs, s.prefs, s.pcs, p);
    assert t in Dropping(s.pcs, p);
    var pc := PcOf(Apply(s, e), t);
    SamePools(s.pools);
    OthersMove(s.pools, s.pcs, t, pc);
    CallersMove(s.pools, s.pools, s.prefs, s.prefs, s.pcs, t, pc);
    forall q | 0 <= q < |s.pools| && s.pools[q].live ensures Count(s.pools[q].refs, s.prefs, s.pcs[t := pc], q) {
      assert Count(s.pools[q].refs, s.prefs, s.pcs, q);
      DroppingMove(s.pcs, t, pc, q);
    }
  }

  /** A pool in the cache is not dead. */
  lemma StagesDead(s: State, p: PoolId)
    requires Registry(s) && p < |s.pools|
    ensures s.pools[p].dead ==> s.pools[p].removed
  {
    assert StageOk(s.pools[p], WorkOf(s.pools[p], s.pcs));
  }

  /** The pool in the cache is later than all pools the caller saw die. */
  lemma FoundIsNew(s: State, t: Thread)
    requires Registry(s) && PcOf(s, t).Login? && PcOf(s, t).at.Lookup? && PcOf(s, t).c.key in s.cache
    ensures var Login(c, seen, _) := PcOf(s, t); CallerOk(s.pools, s.prefs, Login(c, seen, AwaitLive(s.cache[c.key])))
  {
    assert CallerOk(s.pools, s.prefs, s.pcs[t]);
    forall q | q in PcOf(s, t).seen ensures q < s.cache[PcOf(s, t).c.key] {
      StagesDead(s, q);
    }
  }

  lemma RegistryFound(s: State, e: Event)
    requires Registry(s) && Enabled(s, e) && e.FindPool? && !PcOf(Apply(s, e), e.t).Work?
    ensures Registry(Apply(s, e))
  {
    if PcOf(s, e.t).c.key in s.cache {
      FoundIsNew(s, e.t);
    }
    RegistryMoves(s, Apply(s, e), e.t, PcOf(Apply(s, e), e.t));
  }

  lemma CachedAppears(pools: seq<Pool>, cache: map<Key, PoolId>, pool: Pool)
    requires Cached(pools, cache) && pool.key !in cache && !pool.removed
    ensures Cached(pools + [pool], cache[pool.key := |pools|])
  {
  }

  lemma PoolsAppear(pools: seq<Pool>, pool: Pool)
    ensures Evolves(pools, pools + [pool])
  {
  }

  lemma CountsAppear(pools: seq<Pool>, pool: Pool, prefs: seq<Ref>, pcs: map<Thread, Pc>)
    requires Counts(pools, prefs, pcs) && !pool.live
    ensures Counts(pools + [pool], prefs, pcs)
  {
  }

  lemma RegistryInsert(s: State, e: Event)
    requires Registry(s) && Enabled(s, e) && e.FindPool? && PcOf(Apply(s, e), e.t).Work?
    ensures Registry(Apply(s, e))
  {
    var t, s' := e.t, Apply(s, e);
    var pc, pool := PcOf(s', t), s'.pools[|s.pools|];
    PoolAppears(s.pools, s.pcs, t, pool, pc.app);
    PoolsAppear(s.pools, pool);
    CallersMove(s.pools, s'.pools, s.prefs, s.prefs, s.pcs, t, pc);
    ReferencesKept(s.pools, s'.pools, s.prefs);
    CountsMove(s.pools, s.prefs, s.pcs, t, pc);
    CountsAppear(s.pools, pool, s.prefs, s'.pcs);
    CachedAppears(s.pools, s.cache, pool);
  }

  lemma RegistryFind(s: State, e: Event)
    requires Registry(s) && Enabled(s, e) && e.FindPool?
    ensures Registry(Apply(s, e))
  {
    if PcOf(Apply(s, e), e.t).Work? {
      RegistryInsert(s, e);
    } else {
      RegistryFound(s, e);
    }
  }

  // ---- Reference counts ---------------------------------------------------------------------------

  lemma CountsSwap(s: State, pools': seq<Pool>, prefs': seq<Ref>, pcs': map<Thread, Pc>, p: PoolId)
    requires Counts(s.pools, s.prefs, s.pcs)
    requires p < |s.pools| && |pools'| == |s.pools|
    requires forall q :: 0 <= q < |s.pools| && q != p ==> pools'[q] == s.pools[q]
    requires forall q :: q != p ==> |Undropped(prefs', q)| == |Undropped(s.prefs, q)| && |Dropping(pcs', q)| == |Dropping(s.pcs, q)|
    requires pools'[p].live ==> Count(pools'[p].refs, prefs', pcs', p)
    ensures Counts(pools', prefs', pcs')
  {
    forall q | 0 <= q < |pools'| && pools'[q].live ensures Count(pools'[q].refs, prefs', pcs', q) {
      if q != p {
        assert Count(s.pools[q].refs, s.prefs, s.pcs, q);
      }
    }
  }

  lemma RegistryIncrement(s: State, e: Event)
    requires Registry(s) && Enabled(s, e) && e.SwapRefs? && PcOf(s, e.t).Login? && !Apply(s, e).wrapped && !s.wrapped
    ensures Registry(Apply(s, e))
  {
    if PoolOf(s, e.t).refs != PcOf(s, e.t).at.v {
      RegistryRetry(s, e);
    } else {
      RegistrySwapped(s, e);
    }
  }

  lemma RegistryRetry(s: State, e: Event)
    requires Registry(s) && Enabled(s, e) && e.SwapRefs? && PcOf(s, e.t).Login? && PoolOf(s, e.t).refs != PcOf(s, e.t).at.v
    ensures Registry(Apply(s, e))
  {
    assert CallerOk(s.pools, s.prefs, s.pcs[e.t]);
    RegistryMoves(s, Apply(s, e), e.t, PcOf(Apply(s, e), e.t));
  }

  lemma RegistrySwapped(s: State, e: Event)
    requires Registry(s) && Enabled(s, e) && e.SwapRefs? && PcOf(s, e.t).Login? && !Apply(s, e).wrapped && !s.wrapped
    requires PoolOf(s, e.t).refs == PcOf(s, e.t).at.v
    ensures Registry(Apply(s, e))
  {
    assert CallerOk(s.pools, s.prefs, s.pcs[e.t]);
    SwapShares(s, e);
    RegistryShares(s, Apply(s, e), e.t, PcOf(s, e.t).at.p, PcOf(s, e.t).c);
  }

  lemma SwapShares(s: State, e: Event)
    requires Enabled(s, e) && e.SwapRefs? && PcOf(s, e.t).Login? && !Apply(s, e).wrapped
    requires PoolOf(s, e.t).refs == PcOf(s, e.t).at.v
    ensures var Login(c, _, at) := PcOf(s, e.t); var pool := s.pools[at.p];
            pool.refs < UINT32_MOD - 1 &&
            Apply(s, e) == Share(SetPool(s, at.p, pool.(refs := pool.refs + 1)), e.t, at.p, c.app, c.pin)
  {
  }

  /** A caller gets one more reference to a live pool. */
  lemma RegistryShares(s: State, s': State, t: Thread, p: PoolId, c: Call)
    requires Registry(s) && p < |s.pools| && s.pools[p].live && s.pools[p].pin == c.pin && 0 < s.pools[p].refs < UINT32_MOD - 1
    requires !PcOf(s, t).Work? && !PcOf(s, t).Dec?
    requires s' == Share(SetPool(s, p, s.pools[p].(refs := s.pools[p].refs + 1)), t, p, c.app, c.pin)
    ensures Registry(s')
  {
    var pool, pc := s'.pools[p], PcOf(s', t);
    ReferredIdle(s, p);
    PoolChanges(s.pools, s.pcs, p, pool);
    OthersMove(s'.pools, s.pcs, t, pc);
    OnePoolEvolves(s.pools, p, pool);
    CallersMove(s.pools, s'.pools, s.prefs, s'.prefs, s.pcs, t, pc);
    ReferencesKept(s.pools, s'.pools, s.prefs);
    CachedKept(s.pools, s.cache, p, pool);
    CountsShare(s, s', t, p, c);
  }

  lemma CountsShare(s: State, s': State, t: Thread, p: PoolId, c: Call)
    requires Counts(s.pools, s.prefs, s.pcs) && p < |s.pools| && s.pools[p].live && s.pools[p].refs < UINT32_MOD - 1
    requires !PcOf(s, t).Dec?
    requires s' == Share(SetPool(s, p, s.pools[p].(refs := s.pools[p].refs + 1)), t, p, c.app, c.pin)
    ensures Counts(s'.pools, s'.prefs, s'.pcs)
  {
    assert Count(s.pools[p].refs, s.prefs, s.pcs, p);
    forall q ensures |Undropped(s'.prefs, q)| == |Undropped(s.prefs, q)| + (if q == p then 1 else 0)
                     && |Dropping(s'.pcs, q)| == |Dropping(s.pcs, q)|
    {
      UndroppedAppend(s.prefs, Ref(p, c.app, c.pin, t, false), q);
      DroppingMove(s.pcs, t, PcOf(s', t), q);
    }
    CountsSwap(s, s'.pools, s'.prefs, s'.pcs, p);
  }

  lemma DecrementShape(s: State, e: Event)
    requires Enabled(s, e) && e.SwapRefs? && PcOf(s, e.t).Dec? && DecOk(s.pools, PcOf(s, e.t))
    requires StageOk(PoolOf(s, e.t), None) && PoolOf(s, e.t).worker.None? && PoolOf(s, e.t).refs > 0
    ensures var p := PcOf(s, e.t).p; var s' := Apply(s, e); var pc := PcOf(s', e.t);
            s' == s.(pools := s.pools[p := s'.pools[p]], pcs := s.pcs[e.t := pc]) &&
            PoolEvolves(s.pools[p], s'.pools[p]) && s'.pools[p].removed == s.pools[p].removed &&
            !pc.Login? && (pc.Dec? ==> pc.p == p) && (pc.Returned? ==> !pc.result.LoggedIn?) && (pc.Work? ==> pc.p == p) &&
            s'.pools[p].worker == (if pc.Work? then Some(e.t) else None) &&
            StageOk(s'.pools[p], if pc.Work? then Some(pc.work) else None)
  {
  }

  /** A pool that is live, not removed and referred to has no worker. */
  lemma ReferredIdle(s: State, p: PoolId)
    requires Registry(s) && p < |s.pools| && s.pools[p].live && s.pools[p].refs > 0
    ensures s.pools[p].worker.None? && StageOk(s.pools[p], None)
  {
    assert StageOk(s.pools[p], WorkOf(s.pools[p], s.pcs));
  }

  lemma DecrementStages(s: State, e: Event)
    requires Registry(s) && Enabled(s, e) && e.SwapRefs? && PcOf(s, e.t).Dec? && PoolOf(s, e.t).refs > 0
    ensures var p := PcOf(s, e.t).p; var s' := Apply(s, e);
            s' == s.(pools := s.pools[p := s'.pools[p]], pcs := s.pcs[e.t := PcOf(s', e.t)]) &&
            PoolEvolves(s.pools[p], s'.pools[p]) && s'.pools[p].removed == s.pools[p].removed &&
            Workers(s'.pools, s'.pcs) && Stages(s'.pools, s'.pcs)
  {
    var t, s' := e.t, Apply(s, e);
    var p := PcOf(s, t).p;
    assert CallerOk(s.pools, s.prefs, s.pcs[t]);
    ReferredIdle(s, p);
    DecrementShape(s, e);
    WorkerMoves(s.pools, s.pcs, t, p, s'.pools[p], PcOf(s', t));
  }

  lemma DroppingLess(pcs: map<Thread, Pc>, t: Thread, pc: Pc)
    requires t in pcs && pcs[t].Dec? && (pc.Dec? ==> pc.p == pcs[t].p)
    ensures forall q :: |Dropping(pcs[t := pc], q)| == |Dropping(pcs, q)| - if q == pcs[t].p && !pc.Dec? then 1 else 0
  {
    forall q ensures |Dropping(pcs[t := pc], q)| == |Dropping(pcs, q)| - if q == pcs[t].p && !pc.Dec? then 1 else 0 {
      DroppingMove(pcs, t, pc, q);
    }
  }

  lemma DecrementCounts(s: State, e: Event)
    requires Enabled(s, e) && e.SwapRefs? && PcOf(s, e.t).Dec? && DecOk(s.pools, PcOf(s, e.t))
    requires Counts(s.pools, s.prefs, s.pcs)
    ensures PoolOf(s, e.t).refs > 0 && Counts(Apply(s, e).pools, s.prefs, Apply(s, e).pcs)
  {
    var t, s', p := e.t, Apply(s, e), PcOf(s, e.t).p;
    assert Count(s.pools[p].refs, s.prefs, s.pcs, p) && t in Dropping(s.pcs, p);
    DroppingLess(s.pcs, t, PcOf(s', t));
    CountsSwap(s, s'.pools, s'.prefs, s'.pcs, p);
  }

  lemma RegistryDecrement(s: State, e: Event)
    requires Registry(s) && Enabled(s, e) && e.SwapRefs? && PcOf(s, e.t).Dec?
    ensures Registry(Apply(s, e))
  {
    var t, s', p := e.t, Apply(s, e), PcOf(s, e.t).p;
    assert CallerOk(s.pools, s.prefs, s.pcs[t]);
    DecrementCounts(s, e);
    DecrementStages(s, e);
    RegistryDecremented(s, s', t, p);
  }

  lemma RegistryDecremented(s: State, s': State, t: Thread, p: PoolId)
    requires Registry(s) && p < |s.pools| && |s'.pools| == |s.pools|
    requires s' == s.(pools := s.pools[p := s'.pools[p]], pcs := s.pcs[t := PcOf(s', t)])
    requires PoolEvolves(s.pools[p], s'.pools[p]) && s'.pools[p].removed == s.pools[p].removed
    requires Workers(s'.pools, s'.pcs) && Stages(s'.pools, s'.pcs) && Counts(s'.pools, s'.prefs, s'.pcs)
    requires CallerOk(s'.pools, s'.prefs, PcOf(s', t))
    ensures Registry(s')
  {
    OnePoolEvolves(s.pools, p, s'.pools[p]);
    CallersMove(s.pools, s'.pools, s.prefs, s.prefs, s.pcs, t, PcOf(s', t));
    ReferencesKept(s.pools, s'.pools, s.prefs);
    CachedKept(s.pools, s.cache, p, s'.pools[p]);
  }

  lemma RegistryCallDrop(s: State, e: Event)
    requires Registry(s) && Enabled(s, e) && e.CallDrop?
    ensures Registry(Apply(s, e))
  {
    if s.prefs[e.r].dropped {
      RegistryMoves(s, Apply(s, e), e.t, PcOf(Apply(s, e), e.t));
    } else {
      RegistryMark(s, Apply(s, e), e.t, e.r);
    }
  }

  /** A reference is marked as dropped; its count comes off later. */
  lemma RegistryMark(s: State, s': State, t: Thread, r: RefId)
    requires Registry(s) && PcOf(s, t).Idle? && r < |s.prefs| && !s.prefs[r].dropped
    requires var ref := s.prefs[r];
             s' == Goto(s.(prefs := s.prefs[r := ref.(dropped := true)]), t, Dec(ref.app, ref.pool, LoadDec))
    ensures Registry(s')
  {
    var ref, pc := s.prefs[r], PcOf(s', t);
    assert RefOk(s.pools, ref);
    SamePools(s.pools);
    OthersMove(s.pools, s.pcs, t, pc);
    CallersMove(s.pools, s.pools, s.prefs, s'.prefs, s.pcs, t, pc);
    assert References(s.pools, s'.prefs) by {
      forall q | 0 <= q < |s.prefs| ensures RefOk(s.pools, s'.prefs[q]) {
        assert RefOk(s.pools, s.prefs[q]);
      }
    }
    forall q ensures |Dropping(s'.pcs, q)| == |Dropping(s.pcs, q)| + (if q == ref.pool then 1 else 0)
                     && |Undropped(s'.prefs, q)| == |Undropped(s.prefs, q)| - (if q == ref.pool then 1 else 0)
    {
      DroppingMove(s.pcs, t, pc, q);
      UndroppedMark(s.prefs, r, q);
    }
    assert Count(s.pools[ref.pool].refs, s.prefs, s.pcs, ref.pool);
    CountsSwap(s, s.pools, s'.prefs, s'.pcs, ref.pool);
  }

  // ---- Setting up and shutting down -------------------------------------------------------------

  /** The pool a worker is at moves on to a stage that is as it should be. */
  ghost predicate Advances(s: State, s': State, t: Thread)
    requires Known(s, t) && PcOf(s, t).Work?
  {
    var p := PcOf(s, t).p; var pc := PcOf(s', t);
    |s'.pools| == |s.pools| && PoolEvolves(s.pools[p], s'.pools[p]) &&
    StageOk(s'.pools[p], if pc.Work? then Some(pc.work) else None) &&
    (if pc.Work? then pc.p == p && s'.pools[p].worker == Some(t) else s'.pools[p].worker == None)
  }

  predicate ForSetUp(e: Event) {
    e.OpenMain? || e.LoginMain? || e.CloseMain? || e.Remove? || e.Bury?
  }

  lemma SetUpAdvances(s: State, e: Event)
    requires Enabled(s, e) && PcOf(s, e.t).Work? && ForSetUp(e) && !(e.LoginMain? && e.ok)
    requires PoolOf(s, e.t).worker == Some(e.t) && StageOk(PoolOf(s, e.t), Some(PcOf(s, e.t).work))
    ensures Advances(s, Apply(s, e), e.t)
  {
  }

  lemma ShutDownAdvances(s: State, e: Event)
    requires Enabled(s, e) && PcOf(s, e.t).Work? && !ForSetUp(e)
    requires PoolOf(s, e.t).worker == Some(e.t) && StageOk(PoolOf(s, e.t), Some(PcOf(s, e.t).work))
    ensures Advances(s, Apply(s, e), e.t)
  {
  }

  lemma WorkAdvances(s: State, e: Event)
    requires Enabled(s, e) && PcOf(s, e.t).Work? && !(e.LoginMain? && e.ok)
    requires PoolOf(s, e.t).worker == Some(e.t) && StageOk(PoolOf(s, e.t), Some(PcOf(s, e.t).work))
    ensures Advances(s, Apply(s, e), e.t)
  {
    if ForSetUp(e) {
      SetUpAdvances(s, e);
    } else {
      ShutDownAdvances(s, e);
    }
  }

  lemma WorkerStage(s: State, t: Thread)
    requires Registry(s) && PcOf(s, t).Work?
    ensures Known(s, t) && PoolOf(s, t).worker == Some(t) && StageOk(PoolOf(s, t), Some(PcOf(s, t).work))
  {
    var pool := PoolOf(s, t);
    assert pool.worker == Some(t) && StageOk(pool, WorkOf(pool, s.pcs));
  }

  lemma WorkTouches(s: State, e: Event)
    requires Enabled(s, e) && PcOf(s, e.t).Work? && !(e.LoginMain? && e.ok)
    ensures var p := PcOf(s, e.t).p; var s' := Apply(s, e);
            s'.pools == s.pools[p := s'.pools[p]] && s'.pcs == s.pcs[e.t := PcOf(s', e.t)] && s'.prefs == s.prefs
  {
  }

  lemma WorkKeepsCount(s: State, e: Event)
    requires Enabled(s, e) && PcOf(s, e.t).Work? && !(e.LoginMain? && e.ok)
    ensures var p := PcOf(s, e.t).p; var s' := Apply(s, e);
            |s'.pools| == |s.pools| && s'.pools[p].key == s.pools[p].key &&
            s'.pools[p].live == s.pools[p].live && s'.pools[p].refs == s.pools[p].refs
  {
  }

  lemma WorkUncaches(s: State, e: Event)
    requires Enabled(s, e) && PcOf(s, e.t).Work? && !(e.LoginMain? && e.ok)
    ensures var p := PcOf(s, e.t).p; var s' := Apply(s, e);
            s'.pools[p].removed == (s.pools[p].removed || e.Remove?) &&
            s'.cache == (if e.Remove? then s.cache - {s.pools[p].key} else s.cache)
  {
  }

  lemma WorkClosesOnce(s: State, e: Event)
    requires Enabled(s, e) && PcOf(s, e.t).Work? && !(e.LoginMain? && e.ok) && !PoolOf(s, e.t).dead
    ensures !Apply(s, e).panicked
  {
  }

  lemma RegistryWork(s: State, e: Event)
    requires Registry(s) && Enabled(s, e) && PcOf(s, e.t).Work? && !(e.LoginMain? && e.ok)
    ensures Registry(Apply(s, e))
  {
    var t, s' := e.t, Apply(s, e);
    var p, pc := PcOf(s, t).p, PcOf(s', t);
    WorkerStage(s, t);
    WorkAdvances(s, e);
    WorkTouches(s, e);
    WorkKeepsCount(s, e);
    WorkUncaches(s, e);
    WorkClosesOnce(s, e);
    var pool := s'.pools[p];
    WorkerMoves(s.pools, s.pcs, t, p, pool, pc);
    OnePoolEvolves(s.pools, p, pool);
    assert !pc.Login? && !pc.Dec? && (pc.Returned? ==> !pc.result.LoggedIn?);
    CallersMove(s.pools, s'.pools, s.prefs, s.prefs, s.pcs, t, pc);
    ReferencesKept(s.pools, s'.pools, s.prefs);
    CountsMove(s.pools, s.prefs, s.pcs, t, pc);
    CountsKept(s.pools, s.prefs, s'.pcs, p, pool);
    if e.Remove? {
      CachedRemove(s.pools, s.cache, p, pool);
    } else {
      CachedKept(s.pools, s.cache, p, pool);
    }
  }

  lemma CachedRemove(pools: seq<Pool>, cache: map<Key, PoolId>, p: PoolId, pool: Pool)
    requires Cached(pools, cache) && p < |pools| && !pools[p].removed
    requires pool.key == pools[p].key && pool.removed
    ensures Cached(pools[p := pool], cache - {pool.key})
  {
  }

  lemma RegistryLoginMain(s: State, e: Event)
    requires Registry(s) && Enabled(s, e) && e.LoginMain? && e.ok
    ensures Registry(Apply(s, e))
  {
    var t, s' := e.t, Apply(s, e);
    var Work(app, p, work) := PcOf(s, t);
    var pool, pc := s'.pools[p], PcOf(s', t);
    assert s.pools[p].worker == Some(t);
    assert StageOk(s.pools[p], WorkOf(s.pools[p], s.pcs));
    WorkerMoves(s.pools, s.pcs, t, p, pool, pc);
    OnePoolEvolves(s.pools, p, pool);
    CallersMove(s.pools, s'.pools, s.prefs, s'.prefs, s.pcs, t, pc);
    ReferencesKept(s.pools, s'.pools, s.prefs);
    CachedKept(s.pools, s.cache, p, pool);
    NobodyRefersYet(s, p);
    forall q ensures |Undropped(s'.prefs, q)| == |Undropped(s.prefs, q)| + (if q == p then 1 else 0)
                     && |Dropping(s'.pcs, q)| == |Dropping(s.pcs, q)|
    {
      UndroppedAppend(s.prefs, Ref(p, app, s.pools[p].pin, t, false), q);
      DroppingMove(s.pcs, t, pc, q);
    }
    CountsSwap(s, s'.pools, s'.prefs, s'.pcs, p);
  }

  lemma NobodyRefersYet(s: State, p: PoolId)
    requires Registry(s) && p < |s.pools| && !s.pools[p].live
    ensures Undropped(s.prefs, p) == {} && Dropping(s.pcs, p) == {}
  {
    forall r | 0 <= r < |s.prefs| ensures s.prefs[r].pool != p {
      assert RefOk(s.pools, s.prefs[r]);
    }
    forall t | t in s.pcs && s.pcs[t].Dec? ensures s.pcs[t].p != p {
      assert CallerOk(s.pools, s.prefs, s.pcs[t]);
    }
  }

  // ---- Sessions leave the registry alone -----------------------------------------------------------

  lemma RegistrySema(s: State, s': State, t: Thread, pc: Pc, p: PoolId, a: BC.Action)
    requires Registry(s) && p < |s.pools| && s.pools[p].live && BC.Can(s.pools[p].sema, a) && !a.Shut? && !a.Drain?
    requires s'.pools == s.pools[p := s.pools[p].(sema := BC.Do(s.pools[p].sema, a))]
    requires s'.cache == s.cache && s'.prefs == s.prefs && s'.panicked == s.panicked && s'.pcs == s.pcs[t := pc]
    requires !PcOf(s, t).Work? && !pc.Work? && !PcOf(s, t).Dec? && !pc.Dec?
    requires CallerOk(s.pools, s.prefs, pc)
    ensures Registry(s')
  {
    RegistryMoves(s, s.(pcs := s'.pcs), t, pc);
    SemaChanges(s.(pcs := s'.pcs), s', p, a);
  }

  lemma SemaChanges(s: State, s': State, p: PoolId, a: BC.Action)
    requires Registry(s) && p < |s.pools| && s.pools[p].live && BC.Can(s.pools[p].sema, a) && !a.Shut? && !a.Drain?
    requires s'.pools == s.pools[p := s.pools[p].(sema := BC.Do(s.pools[p].sema, a))]
    requires s'.cache == s.cache && s'.prefs == s.prefs && s'.panicked == s.panicked && s'.pcs == s.pcs
    ensures Registry(s')
  {
    var pool := s'.pools[p];
    assert StageOk(s.pools[p], WorkOf(s.pools[p], s.pcs));
    BC.PromiseKept(s.pools[p].sema, a);
    PoolChanges(s.pools, s.pcs, p, pool);
    OnePoolEvolves(s.pools, p, pool);
    CallersKept(s.pools, s'.pools, s.prefs, s.pcs);
    ReferencesKept(s.pools, s'.pools, s.prefs);
    CachedKept(s.pools, s.cache, p, pool);
    CountsKept(s.pools, s.prefs, s.pcs, p, pool);
  }

  lemma CallersKept(pools: seq<Pool>, pools': seq<Pool>, prefs: seq<Ref>, pcs: map<Thread, Pc>)
    requires Callers(pools, prefs, pcs) && Evolves(pools, pools')
    ensures Callers(pools', prefs, pcs)
  {
  }

  lemma RegistryToken(s: State, e: Event)
    requires Registry(s) && ThreadTokens(s.pools, s.slots, s.pcs) && Enabled(s, e)
    requires e.TakeToken? || e.ReleaseToken? || (e.GiveUp? && PcOf(s, e.t).Token?)
    ensures Registry(Apply(s, e))
  {
    var t, s' := e.t, Apply(s, e);
    var Token(p, id, _) := PcOf(s, t);
    assert TokenOk(s.pools, s.slots, t, s.pcs[t]);
    var a := if e.TakeToken? then BC.Take(id) else if e.ReleaseToken? then BC.Give(id) else BC.Fail(id);
    assert s'.pools == s.pools[p := s.pools[p].(sema := BC.Do(s.pools[p].sema, a))];
    RegistrySema(s, s', t, PcOf(s', t), p, a);
  }

  lemma RegistrySession(s: State, e: Event)
    requires Registry(s) && Enabled(s, e) && (e.OpenTemp? || e.CloseTemp?)
    ensures Registry(Apply(s, e))
  {
    RegistryMoves(s, Apply(s, e), e.t, PcOf(Apply(s, e), e.t));
  }

  lemma CloseHandleShape(s: State, e: Event)
    requires Enabled(s, e) && e.CallCloseHandle?
    ensures var s' := Apply(s, e);
            s' == s.(handles := s'.handles, slots := s'.slots, pcs := s.pcs[e.t := PcOf(s', e.t)]) &&
            (PcOf(s', e.t) == Returned(SessionDone) || PcOf(s', e.t).Token?)
  {
  }

  lemma RegistryCloseHandle(s: State, e: Event)
    requires Registry(s) && Enabled(s, e) && e.CallCloseHandle?
    ensures Registry(Apply(s, e))
  {
    CloseHandleShape(s, e);
    RegistryMoves(s, Apply(s, e), e.t, PcOf(Apply(s, e), e.t));
  }

  lemma RegistryGet(s: State, e: Event)
    requires Registry(s) && Enabled(s, e) && e.CallGet?
    ensures Registry(Apply(s, e))
  {
    var t, s' := e.t, Apply(s, e);
    if PcOf(s', t).Token? {
      assert RefOk(s.pools, s.prefs[e.r]);
      RegistrySema(s, s', t, PcOf(s', t), s.prefs[e.r].pool, BC.Begin(|s.slots|));
    } else {
      RegistryMoves(s, s', t, PcOf(s', t));
    }
  }

  // ---- Tokens and sessions ---------------------------------------------------------------------------

  ghost predicate SameHolders(before: seq<Pool>, after: seq<Pool>) {
    && |before| <= |after|
    && (forall p :: 0 <= p < |before| ==>
          after[p].main == before[p].main && after[p].sema.calls == before[p].sema.calls &&
          after[p].sema.holders == before[p].sema.holders && (before[p].live ==> after[p].live))
    && (forall p :: |before| <= p < |after| ==> after[p].main.None? && Unused(after[p]))
  }

  lemma TokensKept(s: State, s': State, t: Thread, pc: Pc)
    requires Tokens(s) && SameHolders(s.pools, s'.pools)
    requires s'.slots == s.slots && s'.handles == s.handles && s'.pcs == s.pcs[t := pc]
    requires !PcOf(s, t).Token? && !pc.Token?
    ensures Tokens(s')
  {
    forall u | u in s'.pcs ensures TokenOk(s'.pools, s'.slots, u, s'.pcs[u]) {
      if u != t {
        assert TokenOk(s.pools, s.slots, u, s.pcs[u]);
      }
    }
    forall h | 0 <= h < |s'.handles| ensures HandleOk(s'.pools, s'.slots, h, s'.handles[h]) {
      assert HandleOk(s.pools, s.slots, h, s.handles[h]);
    }
    forall p | 0 <= p < |s'.pools| ensures MainOk(s'.slots, s'.pools[p], p) && SemaOk(s'.slots, s'.pools[p], p) {
      if p < |s.pools| {
        assert MainOk(s.slots, s.pools[p], p) && SemaOk(s.slots, s.pools[p], p);
      }
    }
  }

  lemma FindKeepsHolders(s: State, e: Event)
    requires Enabled(s, e) && e.FindPool?
    ensures var s' := Apply(s, e);
            SameHolders(s.pools, s'.pools) && s'.slots == s.slots && s'.handles == s.handles &&
            s'.pcs == s.pcs[e.t := PcOf(s', e.t)] && !PcOf(s', e.t).Token?
  {
  }

  lemma TokensFind(s: State, e: Event)
    requires Tokens(s) && Enabled(s, e) && e.FindPool?
    ensures Tokens(Apply(s, e))
  {
    FindKeepsHolders(s, e);
    TokensKept(s, Apply(s, e), e.t, PcOf(Apply(s, e), e.t));
  }

  /** A worker's event leaves the holders of tokens and sessions alone. */
  ghost predicate KeepsHolders(s: State, s': State, t: Thread, p: PoolId) {
    && p < |s.pools| && |s'.pools| == |s.pools| && s'.pools == s.pools[p := s'.pools[p]]
    && s'.pools[p].main == s.pools[p].main
    && s'.pools[p].sema.calls == s.pools[p].sema.calls && s'.pools[p].sema.holders == s.pools[p].sema.holders
    && (s.pools[p].live ==> s'.pools[p].live)
    && s'.slots == s.slots && s'.handles == s.handles && s'.pcs == s.pcs[t := PcOf(s', t)] && !PcOf(s', t).Token?
  }

  lemma SetUpKeepsHolders(s: State, e: Event)
    requires Enabled(s, e) && PcOf(s, e.t).Work? && ForSetUp(e) && !(e.OpenMain? && e.ok) && !e.CloseMain?
    ensures KeepsHolders(s, Apply(s, e), e.t, PcOf(s, e.t).p)
  {
  }

  lemma ShutDownKeepsHolders(s: State, e: Event)
    requires Enabled(s, e) && PcOf(s, e.t).Work? && !ForSetUp(e)
    ensures KeepsHolders(s, Apply(s, e), e.t, PcOf(s, e.t).p)
  {
  }

  lemma TokensWork(s: State, e: Event)
    requires Tokens(s) && Enabled(s, e) && PcOf(s, e.t).Work? && !(e.OpenMain? && e.ok) && !e.CloseMain?
    ensures Tokens(Apply(s, e))
  {
    if ForSetUp(e) {
      SetUpKeepsHolders(s, e);
    } else {
      ShutDownKeepsHolders(s, e);
    }
    TokensKept(s, Apply(s, e), e.t, PcOf(Apply(s, e), e.t));
  }

  predicate MovesOnly(s: State, e: Event) {
    e.CallLogin? || e.SeeLive? || e.SeeDead? || (e.GiveUp? && PcOf(s, e.t).Login?) || e.Finish? || e.LoadRefs? || e.CallDrop?
  }

  lemma TokensLoad(s: State, e: Event)
    requires Tokens(s) && Enabled(s, e) && e.LoadRefs?
    ensures Tokens(Apply(s, e))
  {
    TokensKept(s, Apply(s, e), e.t, PcOf(Apply(s, e), e.t));
  }

  lemma TokensCallDrop(s: State, e: Event)
    requires Tokens(s) && Enabled(s, e) && e.CallDrop?
    ensures Tokens(Apply(s, e))
  {
    TokensKept(s, Apply(s, e), e.t, PcOf(Apply(s, e), e.t));
  }

  lemma TokensMovesOnly(s: State, e: Event)
    requires Tokens(s) && Enabled(s, e) && MovesOnly(s, e) && !e.LoadRefs? && !e.CallDrop?
    ensures Tokens(Apply(s, e))
  {
    TokensKept(s, Apply(s, e), e.t, PcOf(Apply(s, e), e.t));
  }

  lemma TokensIncrement(s: State, e: Event)
    requires Tokens(s) && Enabled(s, e) && e.SwapRefs? && PcOf(s, e.t).Login? && !Apply(s, e).wrapped && !s.wrapped
    ensures Tokens(Apply(s, e))
  {
    TokensKept(s, Apply(s, e), e.t, PcOf(Apply(s, e), e.t));
  }

  lemma TokensDecrement(s: State, e: Event)
    requires Tokens(s) && Enabled(s, e) && e.SwapRefs? && PcOf(s, e.t).Dec?
    ensures Tokens(Apply(s, e))
  {
    TokensKept(s, Apply(s, e), e.t, PcOf(Apply(s, e), e.t));
  }

  // ---- Tokens that change hands ------------------------------------------------------------------------

  /** What an event on an existing slot comes down to. */
  ghost predicate Hands(s: State, s': State, t: Thread, p: PoolId, id: nat, owner: Owner, pool: Pool) {
    && p < |s.pools| && s'.pools == s.pools[p := pool]
    && id < |s.slots| && s'.slots == s.slots[id := s.slots[id].(owner := owner)]
    && s'.pcs == s.pcs[t := PcOf(s', t)]
  }

  lemma TokensHandover(s: State, s': State, t: Thread, p: PoolId, id: nat, owner: Owner, pool: Pool)
    requires Tokens(s) && Hands(s, s', t, p, id, owner, pool) && s'.handles == s.handles
    requires s.slots[id] == Slot(p, OfThread(t)) || s.slots[id] == Slot(p, Main)
    requires Handover(s.pools[p], pool, id) && TokenOk(s'.pools, s'.slots, t, PcOf(s', t))
    requires pool.sema.calls <= s.pools[p].sema.calls + {id} && pool.sema.holders <= s.pools[p].sema.holders + {id}
    requires pool.sema.calls !! pool.sema.holders
    requires id in pool.sema.calls + pool.sema.holders ==> owner.OfThread? || owner.OfHandle?
    requires pool.main == s.pools[p].main || pool.main == None
    requires pool.main != Some(id)
    ensures Tokens(s')
  {
    ThreadTokensHandover(s.pools, s.slots, s.pcs, p, pool, id, owner, t, PcOf(s', t));
    HandleTokensHandover(s.pools, s.slots, s.handles, p, pool, id, owner);
    PoolTokensHandover(s.pools, s.slots, p, pool, id, owner);
  }

  lemma TokensTake(s: State, e: Event)
    requires Tokens(s) && Enabled(s, e) && e.TakeToken?
    ensures Tokens(Apply(s, e))
  {
    var t, s' := e.t, Apply(s, e);
    var Token(p, id, _) := PcOf(s, t);
    assert TokenOk(s.pools, s.slots, t, s.pcs[t]) && MainOk(s.slots, s.pools[p], p) && SemaOk(s.slots, s.pools[p], p);
    assert s.slots == s.slots[id := s.slots[id].(owner := OfThread(t))];
    TokensHandover(s, s', t, p, id, OfThread(t), s'.pools[p]);
  }

  lemma TokensReturn(s: State, e: Event)
    requires Tokens(s) && Enabled(s, e) && (e.ReleaseToken? || (e.GiveUp? && PcOf(s, e.t).Token?))
    ensures Tokens(Apply(s, e))
  {
    var t, s' := e.t, Apply(s, e);
    var Token(p, id, _) := PcOf(s, t);
    assert TokenOk(s.pools, s.slots, t, s.pcs[t]) && MainOk(s.slots, s.pools[p], p) && SemaOk(s.slots, s.pools[p], p);
    TokensHandover(s, s', t, p, id, Gone, s'.pools[p]);
  }

  lemma TokensCloseTemp(s: State, e: Event)
    requires Tokens(s) && Enabled(s, e) && e.CloseTemp?
    ensures Tokens(Apply(s, e))
  {
    var t, s' := e.t, Apply(s, e);
    var Token(p, id, _) := PcOf(s, t);
    assert TokenOk(s.pools, s.slots, t, s.pcs[t]) && MainOk(s.slots, s.pools[p], p) && SemaOk(s.slots, s.pools[p], p);
    assert s.slots == s.slots[id := s.slots[id].(owner := OfThread(t))];
    assert s.pools == s.pools[p := s.pools[p]];
    TokensHandover(s, s', t, p, id, OfThread(t), s.pools[p]);
  }

  lemma TokensOpenTemp(s: State, e: Event)
    requires Tokens(s) && Enabled(s, e) && e.OpenTemp?
    ensures Tokens(Apply(s, e))
  {
    var t, s' := e.t, Apply(s, e);
    var Token(p, id, _) := PcOf(s, t);
    assert TokenOk(s.pools, s.slots, t, s.pcs[t]) && MainOk(s.slots, s.pools[p], p) && SemaOk(s.slots, s.pools[p], p);
    assert s.pools == s.pools[p := s.pools[p]];
    if e.ok {
      var h := |s.handles|;
      TokensHandover(s, s'.(handles := s.handles), t, p, id, OfHandle(h), s.pools[p]);
      assert HandleOk(s'.pools, s'.slots, h, Handle(p, id, false));
    } else {
      assert s.slots == s.slots[id := s.slots[id].(owner := OfThread(t))];
      TokensHandover(s, s', t, p, id, OfThread(t), s.pools[p]);
    }
  }

  lemma TokensCloseHandle(s: State, e: Event)
    requires Tokens(s) && Enabled(s, e) && e.CallCloseHandle?
    ensures Tokens(Apply(s, e))
  {
    var t, s', handle := e.t, Apply(s, e), s.handles[e.h];
    assert HandleOk(s.pools, s.slots, e.h, handle);
    if handle.closed {
      TokensKept(s, s', t, PcOf(s', t));
    } else {
      var p, id := handle.pool, handle.id;
      assert MainOk(s.slots, s.pools[p], p) && SemaOk(s.slots, s.pools[p], p);
      assert s.pools == s.pools[p := s.pools[p]];
      ThreadTokensHandover(s.pools, s.slots, s.pcs, p, s.pools[p], id, OfThread(t), t, PcOf(s', t));
      PoolTokensHandover(s.pools, s.slots, p, s.pools[p], id, OfThread(t));
      forall g | 0 <= g < |s'.handles| ensures HandleOk(s'.pools, s'.slots, g, s'.handles[g]) {
        assert HandleOk(s.pools, s.slots, g, s.handles[g]);
      }
    }
  }

  lemma TokensCloseMain(s: State, e: Event)
    requires Registry(s) && Tokens(s) && Enabled(s, e) && e.CloseMain?
    ensures Tokens(Apply(s, e))
  {
    var t, s' := e.t, Apply(s, e);
    var p, id := PcOf(s, t).p, PcOf(s, t).work.id;
    assert s.pools[p].worker == Some(t) && StageOk(s.pools[p], WorkOf(s.pools[p], s.pcs));
    assert MainOk(s.slots, s.pools[p], p) && SemaOk(s.slots, s.pools[p], p);
    var pool := s.pools[p].(main := None);
    assert s'.pools == s.pools[p := pool] && s'.handles == s.handles;
    assert s'.slots == s.slots[id := s.slots[id].(owner := Gone)];
    assert PcOf(s', t).Work?;
    TokensHandover(s, s', t, p, id, Gone, pool);
  }

  // ---- New tokens ------------------------------------------------------------------------------------------

  lemma TokensAppear(s: State, s': State, t: Thread, p: PoolId, pool: Pool, owner: Owner)
    requires Tokens(s) && p < |s.pools| && s'.pools == s.pools[p := pool] && s'.slots == s.slots + [Slot(p, owner)]
    requires s'.handles == s.handles && s'.pcs == s.pcs[t := PcOf(s', t)] && PcOf(s, t).Token? == false
    requires pool.live == s.pools[p].live && s.pools[p].sema.calls <= pool.sema.calls
    requires pool.sema.holders == s.pools[p].sema.holders && pool.sema.calls <= s.pools[p].sema.calls + {|s.slots|}
    requires |s.slots| in pool.sema.calls ==> owner.OfThread?
    requires pool.main == s.pools[p].main || (pool.main == Some(|s.slots|) && owner.Main?)
    requires TokenOk(s'.pools, s'.slots, t, PcOf(s', t))
    ensures Tokens(s')
  {
    forall u | u in s'.pcs ensures TokenOk(s'.pools, s'.slots, u, s'.pcs[u]) {
      if u != t {
        assert TokenOk(s.pools, s.slots, u, s.pcs[u]);
      }
    }
    forall h | 0 <= h < |s'.handles| ensures HandleOk(s'.pools, s'.slots, h, s'.handles[h]) {
      assert HandleOk(s.pools, s.slots, h, s.handles[h]);
    }
    forall q | 0 <= q < |s'.pools| ensures MainOk(s'.slots, s'.pools[q], q) && SemaOk(s'.slots, s'.pools[q], q) {
      assert MainOk(s.slots, s.pools[q], q) && SemaOk(s.slots, s.pools[q], q);
      assert |s.slots| !in s.pools[q].sema.calls + s.pools[q].sema.holders;
    }
  }

  lemma TokensOpenMain(s: State, e: Event)
    requires Tokens(s) && Enabled(s, e) && e.OpenMain? && e.ok
    ensures Tokens(Apply(s, e))
  {
    var p, s' := PcOf(s, e.t).p, Apply(s, e);
    assert SemaOk(s.slots, s.pools[p], p);
    assert |s.slots| !in s.pools[p].sema.calls + s.pools[p].sema.holders;
    assert s'.pools == s.pools[p := s'.pools[p]];
    TokensAppear(s, s', e.t, p, s'.pools[p], Main);
  }

  lemma TokensGet(s: State, e: Event)
    requires Registry(s) && Tokens(s) && Enabled(s, e) && e.CallGet?
    ensures Tokens(Apply(s, e))
  {
    var t, s', p := e.t, Apply(s, e), s.prefs[e.r].pool;
    assert RefOk(s.pools, s.prefs[e.r]);
    if PcOf(s', t).Token? {
      TokensAppear(s, s', t, p, s'.pools[p], OfThread(t));
    } else {
      TokensKept(s, s', t, PcOf(s', t));
    }
  }

  // ---- Login state ---------------------------------------------------------------------------------------------

  /** No pool comes to depend on its session or on the login in this change. */
  ghost predicate NoNewMains(before: seq<Pool>, after: seq<Pool>) {
    forall p :: 0 <= p < |after| && !after[p].removed && !after[p].loggedOut && after[p].main.Some? ==>
      p < |before| && !before[p].removed && !before[p].loggedOut && after[p].main == before[p].main &&
      after[p].live == before[p].live && after[p].key == before[p].key
  }

  lemma SessionsKept(s: State, s': State)
    requires Sessions(s) && NoNewMains(s.pools, s'.pools) && |s.slots| <= |s'.slots|
    requires s'.open == s.open && s'.loggedIn == s.loggedIn
    ensures Sessions(s')
  {
  }

  lemma SessionsFind(s: State, e: Event)
    requires Sessions(s) && Enabled(s, e) && e.FindPool?
    ensures Sessions(Apply(s, e))
  {
    SessionsKept(s, Apply(s, e));
  }

  lemma SessionsMovesOnly(s: State, e: Event)
    requires Sessions(s) && Enabled(s, e) && MovesOnly(s, e)
    ensures Sessions(Apply(s, e))
  {
    SessionsKept(s, Apply(s, e));
  }

  lemma SessionsIncrement(s: State, e: Event)
    requires Sessions(s) && Enabled(s, e) && e.SwapRefs? && PcOf(s, e.t).Login?
    ensures Sessions(Apply(s, e))
  {
    SessionsKept(s, Apply(s, e));
  }

  lemma SessionsDecrement(s: State, e: Event)
    requires Sessions(s) && Enabled(s, e) && e.SwapRefs? && PcOf(s, e.t).Dec?
    ensures Sessions(Apply(s, e))
  {
    SessionsKept(s, Apply(s, e));
  }

  lemma SessionsCloseHandle(s: State, e: Event)
    requires Sessions(s) && Enabled(s, e) && e.CallCloseHandle?
    ensures Sessions(Apply(s, e))
  {
    SessionsKept(s, Apply(s, e));
  }

  lemma SessionsTake(s: State, e: Event)
    requires Sessions(s) && Enabled(s, e) && e.TakeToken?
    ensures Sessions(Apply(s, e))
  {
    SessionsKept(s, Apply(s, e));
  }

  lemma SessionsGet(s: State, e: Event)
    requires Sessions(s) && Enabled(s, e) && e.CallGet?
    ensures Sessions(Apply(s, e))
  {
    SessionsKept(s, Apply(s, e));
  }

  lemma SessionsReturn(s: State, e: Event)
    requires Sessions(s) && Enabled(s, e) && (e.ReleaseToken? || (e.GiveUp? && PcOf(s, e.t).Token?))
    ensures Sessions(Apply(s, e))
  {
    SessionsKept(s, Apply(s, e));
  }

  lemma SessionsOpenTemp(s: State, e: Event)
    requires Tokens(s) && Sessions(s) && Enabled(s, e) && e.OpenTemp?
    ensures Sessions(Apply(s, e))
  {
    assert TokenOk(s.pools, s.slots, e.t, s.pcs[e.t]);
  }

  lemma SessionsWork(s: State, e: Event)
    requires Registry(s) && Sessions(s) && Enabled(s, e) && PcOf(s, e.t).Work?
    requires e.Remove? || e.Bury? || e.ShutSemaphore? || e.Drained? || e.GiveUp?
    ensures Sessions(Apply(s, e))
  {
    SessionsKept(s, Apply(s, e));
  }

  lemma SessionsOpenMain(s: State, e: Event)
    requires Registry(s) && Sessions(s) && Enabled(s, e) && e.OpenMain?
    ensures Sessions(Apply(s, e))
  {
    var p := PcOf(s, e.t).p;
    assert s.pools[p].worker == Some(e.t) && StageOk(s.pools[p], WorkOf(s.pools[p], s.pcs));
  }

  lemma SessionsLoginMain(s: State, e: Event)
    requires Registry(s) && Sessions(s) && Enabled(s, e) && e.LoginMain?
    ensures Sessions(Apply(s, e))
  {
    var p := PcOf(s, e.t).p;
    assert s.pools[p].worker == Some(e.t) && StageOk(s.pools[p], WorkOf(s.pools[p], s.pcs));
  }

  lemma SessionsLogout(s: State, e: Event)
    requires Registry(s) && Sessions(s) && Enabled(s, e) && e.Logout?
    ensures Sessions(Apply(s, e))
  {
    var p, s' := PcOf(s, e.t).p, Apply(s, e);
    assert s.pools[p].worker == Some(e.t) && StageOk(s.pools[p], WorkOf(s.pools[p], s.pcs));
    forall q | 0 <= q < |s.pools| && q != p && !s.pools[q].removed ensures s.pools[q].key != s.pools[p].key {
    }
  }

  lemma KeyOfAnother(s: State, p: PoolId, q: PoolId)
    requires Registry(s) && Tokens(s) && p < |s.pools| && q < |s.pools| && p != q
    requires !s.pools[p].removed && !s.pools[q].removed && s.pools[q].main.Some?
    ensures s.pools[q].key != s.pools[p].key && s.pools[q].main.value !in SessionsOf(s, s.pools[p].key)
  {
    assert MainOk(s.slots, s.pools[q], q);
  }

  lemma CloseAllShape(s: State, e: Event)
    requires Enabled(s, e) && e.CloseAll?
    ensures var p := PcOf(s, e.t).p; var s' := Apply(s, e); var key := s.pools[p].key;
            s'.pools == s.pools[p := s.pools[p].(emptied := true)] && s'.slots == s.slots &&
            s.open - SessionsOf(s, key) <= s'.open <= s.open && s.loggedIn - {key} <= s'.loggedIn
  {
  }

  lemma SessionsCloseAll(s: State, e: Event)
    requires Registry(s) && Tokens(s) && Sessions(s) && Enabled(s, e) && e.CloseAll?
    ensures Sessions(Apply(s, e))
  {
    var p, s' := PcOf(s, e.t).p, Apply(s, e);
    WorkerStage(s, e.t);
    CloseAllShape(s, e);
    forall q | 0 <= q < |s'.pools| && !s'.pools[q].removed && !s'.pools[q].loggedOut && s'.pools[q].main.Some?
      ensures s'.pools[q].main.value in s'.open && (s'.pools[q].live ==> s'.pools[q].key in s'.loggedIn)
    {
      OtherMainStays(s, s', p, q);
    }
  }

  lemma OtherMainStays(s: State, s': State, p: PoolId, q: PoolId)
    requires Registry(s) && Tokens(s) && Sessions(s) && p < |s.pools| && q < |s.pools| && p != q
    requires !s.pools[p].removed && !s.pools[q].removed && !s.pools[q].loggedOut && s.pools[q].main.Some?
    requires s.open - SessionsOf(s, s.pools[p].key) <= s'.open && s.loggedIn - {s.pools[p].key} <= s'.loggedIn
    ensures s.pools[q].main.value in s'.open && (s.pools[q].live ==> s.pools[q].key in s'.loggedIn)
  {
    KeyOfAnother(s, p, q);
  }

  /** Closing a session that is no pool's own leaves the login alone: the pool's own session keeps
      the token logged in. */
  lemma SessionsClose(s: State, key: Key, id: nat, ok: bool)
    requires Tokens(s) && Sessions(s)
    requires forall q :: 0 <= q < |s.pools| ==> s.pools[q].main != Some(id)
    ensures Sessions(CloseSession(s, key, id, ok))
  {
    var s' := CloseSession(s, key, id, ok);
    forall q | 0 <= q < |s.pools| && !s.pools[q].removed && !s.pools[q].loggedOut && s.pools[q].main.Some?
      ensures s.pools[q].main.value in s'.open && (s.pools[q].live ==> s.pools[q].key in s'.loggedIn)
    {
      assert MainOk(s.slots, s.pools[q], q);
      if s.pools[q].key == key {
        assert s.pools[q].main.value in SessionsOf(s, key);
      }
    }
  }

  lemma SessionsCloseTemp(s: State, e: Event)
    requires Tokens(s) && Sessions(s) && Enabled(s, e) && e.CloseTemp?
    ensures Sessions(Apply(s, e))
  {
    var Token(p, id, _) := PcOf(s, e.t);
    assert TokenOk(s.pools, s.slots, e.t, s.pcs[e.t]);
    forall q | 0 <= q < |s.pools| ensures s.pools[q].main != Some(id) {
      assert MainOk(s.slots, s.pools[q], q);
    }
    SessionsClose(s, s.pools[p].key, id, e.ok);
    SessionsKept(CloseSession(s, s.pools[p].key, id, e.ok), Apply(s, e));
  }

  lemma CloseMainMoves(s: State, e: Event)
    requires Enabled(s, e) && e.CloseMain?
    ensures var Work(_, p, work) := PcOf(s, e.t); var s' := Apply(s, e);
            s'.pools == s.pools[p := s.pools[p].(main := None)] && |s'.slots| == |s.slots| &&
            s.open - {work.id} <= s'.open <= s.open && s.loggedIn - {s.pools[p].key} <= s'.loggedIn
  {
  }

  lemma SessionsCloseMain(s: State, e: Event)
    requires Registry(s) && Tokens(s) && Sessions(s) && Enabled(s, e) && e.CloseMain?
    ensures Sessions(Apply(s, e))
  {
    var p, s' := PcOf(s, e.t).p, Apply(s, e);
    WorkerStage(s, e.t);
    CloseMainMoves(s, e);
    assert MainOk(s.slots, s.pools[p], p);
    assert s'.open <= s.open;
    forall q | 0 <= q < |s'.pools| && !s'.pools[q].removed && !s'.pools[q].loggedOut && s'.pools[q].main.Some?
      ensures s'.pools[q].main.value in s'.open && (s'.pools[q].live ==> s'.pools[q].key in s'.loggedIn)
    {
      OtherMainKept(s, s', p, q);
    }
  }

  lemma OtherMainKept(s: State, s': State, p: PoolId, q: PoolId)
    requires Registry(s) && Tokens(s) && Sessions(s) && p < |s.pools| && q < |s.pools| && p != q
    requires !s.pools[p].removed && !s.pools[q].removed && !s.pools[q].loggedOut && s.pools[q].main.Some?
    requires s.pools[p].main.Some? && s.open - {s.pools[p].main.value} <= s'.open
    requires s.loggedIn - {s.pools[p].key} <= s'.loggedIn
    ensures s.pools[q].main.value in s'.open && (s.pools[q].live ==> s.pools[q].key in s'.loggedIn)
  {
    KeyOfAnother(s, p, q);
    assert MainOk(s.slots, s.pools[q], q) && MainOk(s.slots, s.pools[p], p);
  }

  // ---- All events ----------------------------------------------------------------------------------------------

  predicate SessionEvent(s: State, e: Event) {
    PcOf(s, e.t).Token? || e.CallGet? || e.CallCloseHandle?
  }

  /** An event moves its own thread only. */
  lemma OwnThread(s: State, e: Event, t: Thread)
    requires Enabled(s, e) && e.t != t
    ensures PcOf(Apply(s, e), t) == PcOf(s, t)
  {
    if SessionEvent(s, e) {
      OwnThreadSession(s, e, t);
    } else {
      OwnThreadElse(s, e, t);
    }
  }

  lemma OwnThreadSession(s: State, e: Event, t: Thread)
    requires Enabled(s, e) && e.t != t && SessionEvent(s, e)
    ensures PcOf(Apply(s, e), t) == PcOf(s, t)
  {
  }

  lemma OwnThreadElse(s: State, e: Event, t: Thread)
    requires Enabled(s, e) && e.t != t && !SessionEvent(s, e)
    ensures PcOf(Apply(s, e), t) == PcOf(s, t)
  {
    if PcOf(s, e.t).Work? {
      OwnThreadWork(s, e, t);
    }
  }

  lemma OwnThreadWork(s: State, e: Event, t: Thread)
    requires Enabled(s, e) && e.t != t && PcOf(s, e.t).Work?
    ensures PcOf(Apply(s, e), t) == PcOf(s, t)
  {
  }

  lemma RegistryStepSession(s: State, e: Event)
    requires Registry(s) && ThreadTokens(s.pools, s.slots, s.pcs) && Enabled(s, e) && SessionEvent(s, e)
    ensures Registry(Apply(s, e))
  {
    if e.CallGet? {
      RegistryGet(s, e);
    } else if e.CallCloseHandle? {
      RegistryCloseHandle(s, e);
    } else if e.OpenTemp? || e.CloseTemp? {
      RegistrySession(s, e);
    } else {
      RegistryToken(s, e);
    }
  }

  lemma RegistryStepCaller(s: State, e: Event)
    requires Registry(s) && Enabled(s, e) && !s.wrapped && !Apply(s, e).wrapped
    requires !SessionEvent(s, e) && !PcOf(s, e.t).Work?
    ensures Registry(Apply(s, e))
  {
    if e.SwapRefs? || e.LoadRefs? {
      RegistryStepCounts(s, e);
    } else if e.FindPool? {
      RegistryFind(s, e);
    } else if e.CallDrop? {
      RegistryCallDrop(s, e);
    } else {
      RegistryLogin(s, e);
    }
  }

  lemma RegistryStepCounts(s: State, e: Event)
    requires Registry(s) && Enabled(s, e) && !s.wrapped && !Apply(s, e).wrapped && (e.SwapRefs? || e.LoadRefs?)
    ensures Registry(Apply(s, e))
  {
    if PcOf(s, e.t).Login? {
      if e.SwapRefs? {
        RegistryIncrement(s, e);
      } else {
        RegistryLogin(s, e);
      }
    } else if e.SwapRefs? {
      RegistryDecrement(s, e);
    } else {
      RegistryLoadDec(s, e);
    }
  }

  lemma RegistryStep(s: State, e: Event)
    requires Registry(s) && Tokens(s) && Enabled(s, e) && !s.wrapped && !Apply(s, e).wrapped
    ensures Registry(Apply(s, e))
  {
    if SessionEvent(s, e) {
      RegistryStepSession(s, e);
    } else if !PcOf(s, e.t).Work? {
      RegistryStepCaller(s, e);
    } else if e.LoginMain? && e.ok {
      RegistryLoginMain(s, e);
    } else {
      RegistryWork(s, e);
    }
  }

  lemma TokensStepSession(s: State, e: Event)
    requires Registry(s) && Tokens(s) && Enabled(s, e) && SessionEvent(s, e)
    ensures Tokens(Apply(s, e))
  {
    if e.CallGet? {
      TokensGet(s, e);
    } else if e.CallCloseHandle? {
      TokensCloseHandle(s, e);
    } else {
      TokensStepHeld(s, e);
    }
  }

  lemma TokensStepHeld(s: State, e: Event)
    requires Tokens(s) && Enabled(s, e) && PcOf(s, e.t).Token?
    ensures Tokens(Apply(s, e))
  {
    match e
    case TakeToken(_) => TokensTake(s, e);
    case OpenTemp(_, _) => TokensOpenTemp(s, e);
    case CloseTemp(_, _) => TokensCloseTemp(s, e);
    case _ => TokensReturn(s, e);
  }

  lemma TokensStepWork(s: State, e: Event)
    requires Registry(s) && Tokens(s) && Enabled(s, e) && PcOf(s, e.t).Work?
    ensures Tokens(Apply(s, e))
  {
    if e.OpenMain? && e.ok {
      TokensOpenMain(s, e);
    } else if e.CloseMain? {
      TokensCloseMain(s, e);
    } else {
      TokensWork(s, e);
    }
  }

  lemma TokensStep(s: State, e: Event)
    requires Registry(s) && Tokens(s) && Enabled(s, e) && !s.wrapped && !Apply(s, e).wrapped
    ensures Tokens(Apply(s, e))
  {
    if SessionEvent(s, e) {
      TokensStepSession(s, e);
    } else if PcOf(s, e.t).Work? {
      TokensStepWork(s, e);
    } else if e.FindPool? {
      TokensFind(s, e);
    } else if e.SwapRefs? && PcOf(s, e.t).Login? {
      TokensIncrement(s, e);
    } else if e.SwapRefs? {
      TokensDecrement(s, e);
    } else if e.LoadRefs? {
      TokensLoad(s, e);
    } else if e.CallDrop? {
      TokensCallDrop(s, e);
    } else {
      TokensMovesOnly(s, e);
    }
  }

  lemma SessionsStepSession(s: State, e: Event)
    requires Tokens(s) && Sessions(s) && Enabled(s, e) && SessionEvent(s, e)
    ensures Sessions(Apply(s, e))
  {
    match e
    case CallGet(_, _) => SessionsGet(s, e);
    case OpenTemp(_, _) => SessionsOpenTemp(s, e);
    case CloseTemp(_, _) => SessionsCloseTemp(s, e);
    case CallCloseHandle(_, _) => SessionsCloseHandle(s, e);
    case TakeToken(_) => SessionsTake(s, e);
    case _ => SessionsReturn(s, e);
  }

  lemma SessionsStepWork(s: State, e: Event)
    requires Registry(s) && Tokens(s) && Sessions(s) && Enabled(s, e) && PcOf(s, e.t).Work?
    ensures Sessions(Apply(s, e))
  {
    if e.OpenMain? || e.LoginMain? || e.CloseMain? {
      SessionsStepMain(s, e);
    } else if e.Logout? {
      SessionsLogout(s, e);
    } else if e.CloseAll? {
      SessionsCloseAll(s, e);
    } else {
      SessionsWork(s, e);
    }
  }

  lemma SessionsStepMain(s: State, e: Event)
    requires Registry(s) && Tokens(s) && Sessions(s) && Enabled(s, e) && (e.OpenMain? || e.LoginMain? || e.CloseMain?)
    ensures Sessions(Apply(s, e))
  {
    if e.OpenMain? {
      SessionsOpenMain(s, e);
    } else if e.LoginMain? {
      SessionsLoginMain(s, e);
    } else {
      SessionsCloseMain(s, e);
    }
  }

  lemma SessionsStep(s: State, e: Event)
    requires Registry(s) && Tokens(s) && Sessions(s) && Enabled(s, e)
    ensures Sessions(Apply(s, e))
  {
    if SessionEvent(s, e) {
      SessionsStepSession(s, e);
    } else if PcOf(s, e.t).Work? {
      SessionsStepWork(s, e);
    } else if e.SwapRefs? && PcOf(s, e.t).Login? {
      SessionsIncrement(s, e);
    } else if e.SwapRefs? {
      SessionsDecrement(s, e);
    } else if e.FindPool? {
      SessionsFind(s, e);
    } else {
      SessionsMovesOnly(s, e);
    }
  }

  lemma StepValid(s: State, e: Event)
    requires Valid(s) && Enabled(s, e)
    ensures Valid(Apply(s, e)) && (s.wrapped ==> Apply(s, e).wrapped)
  {
    if !Apply(s, e).wrapped && !s.wrapped {
      RegistryStep(s, e);
      TokensStep(s, e);
      SessionsStep(s, e);
    }
  }

  lemma {:induction false} ExecValid(s: State, es: seq<Event>)
    requires Valid(s) && Exec(s, es).Some?
    ensures Valid(Exec(s, es).value)
    decreases |es|
  {
    if es == [] {
    } else {
      StepValid(s, es[0]);
      ExecValid(Apply(s, es[0]), es[1..]);
    }
  }
}
