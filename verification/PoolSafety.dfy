/** What holds of session pools in every state any run of concurrent callers can reach. */
module PoolSafety {
  import opened Common
  import opened PoolProtocol
  import opened PoolInvariant
  import opened PoolSteps

  ghost predicate Reaches(es: seq<Event>) {
    Exec(Init(), es).Some? && !Exec(Init(), es).value.wrapped
  }

  function After(es: seq<Event>): State
    requires Exec(Init(), es).Some?
  {
    Exec(Init(), es).value
  }

  lemma ReachedValid(es: seq<Event>)
    requires Reaches(es)
    ensures Registry(After(es)) && Tokens(After(es)) && Sessions(After(es))
  {
    InitValid();
    ExecValid(Init(), es);
  }

  // ---- Reference counts ---------------------------------------------------------------------------

  /** For a pool whose login succeeded, the count is the number of undropped PoolRefs plus the Drops
      that have not decremented yet; decRefs never finds zero. */
  lemma RefcountExact(es: seq<Event>, p: PoolId)
    requires Reaches(es) && p < |After(es).pools| && After(es).pools[p].live
    ensures var s := After(es); s.pools[p].refs == |Undropped(s.prefs, p)| + |Dropping(s.pcs, p)|
    ensures var s := After(es); forall t :: t in Dropping(s.pcs, p) ==> s.pools[p].refs > 0
  {
    ReachedValid(es);
    var s := After(es);
    assert Count(s.pools[p].refs, s.prefs, s.pcs, p);
  }

  /** The count stays below the range of uint32 as long as fewer than 2^32 - 1 PoolRefs were handed
      out and not yet accounted for as dropped. */
  lemma NoWrap(s: State, e: Event)
    requires Registry(s) && !s.wrapped && Enabled(s, e) && e.SwapRefs? && PcOf(s, e.t).Login?
    requires var p := PcOf(s, e.t).at.p; |Undropped(s.prefs, p)| + |Dropping(s.pcs, p)| < UINT32_MOD - 1
    ensures !Apply(s, e).wrapped
  {
    assert CallerOk(s.pools, s.prefs, s.pcs[e.t]);
    var p := PcOf(s, e.t).at.p;
    assert Count(s.pools[p].refs, s.prefs, s.pcs, p);
  }

  lemma OnlySwapsWrap(s: State, e: Event)
    requires Enabled(s, e) && !(e.SwapRefs? && PcOf(s, e.t).Login?)
    ensures Apply(s, e).wrapped == s.wrapped
  {
    if PcOf(s, e.t).Work? {
      WorkDoesNotWrap(s, e);
    }
  }

  lemma WorkDoesNotWrap(s: State, e: Event)
    requires Enabled(s, e) && PcOf(s, e.t).Work?
    ensures Apply(s, e).wrapped == s.wrapped
  {
  }

  lemma NoWrapBelowRange(es: seq<Event>, e: Event)
    requires Reaches(es) && Enabled(After(es), e)
    requires forall p :: 0 <= p < |After(es).pools| ==>
      |Undropped(After(es).prefs, p)| + |Dropping(After(es).pcs, p)| < UINT32_MOD - 1
    ensures !Apply(After(es), e).wrapped
  {
    ReachedValid(es);
    var s := After(es);
    if e.SwapRefs? && PcOf(s, e.t).Login? {
      NoWrap(s, e);
    } else {
      OnlySwapsWrap(s, e);
    }
  }

  lemma WorkEvolves(s: State, e: Event)
    requires Registry(s) && Enabled(s, e) && PcOf(s, e.t).Work?
    ensures Evolves(s.pools, Apply(s, e).pools)
  {
    var p := PcOf(s, e.t).p;
    if e.LoginMain? && e.ok {
      assert StageOk(s.pools[p], WorkOf(s.pools[p], s.pcs));
    } else {
      WorkerStage(s, e.t);
      WorkAdvances(s, e);
      WorkTouches(s, e);
    }
    OnePoolEvolves(s.pools, p, Apply(s, e).pools[p]);
  }

  lemma SwapIncEvolves(s: State, e: Event)
    requires Enabled(s, e) && e.SwapRefs? && PcOf(s, e.t).Login? && LoginOk(s.pools, PcOf(s, e.t))
    ensures Evolves(s.pools, Apply(s, e).pools)
  {
    var p := PcOf(s, e.t).at.p;
    SamePools(s.pools);
    OnePoolEvolves(s.pools, p, Apply(s, e).pools[p]);
  }

  lemma SwapDecEvolves(s: State, e: Event)
    requires Enabled(s, e) && e.SwapRefs? && PcOf(s, e.t).Dec? && DecOk(s.pools, PcOf(s, e.t))
    ensures Evolves(s.pools, Apply(s, e).pools)
  {
    var Dec(app, p, dec) := PcOf(s, e.t);
    if s.pools[p].refs != dec.v {
      SamePools(s.pools);
    } else if dec.v > 1 {
      FewerEvolves(s, e);
    } else {
      LastEvolves(s, e);
    }
  }

  lemma FewerEvolves(s: State, e: Event)
    requires Enabled(s, e) && e.SwapRefs? && PcOf(s, e.t).Dec? && PoolOf(s, e.t).refs == PcOf(s, e.t).dec.v > 1
    ensures Evolves(s.pools, Apply(s, e).pools)
  {
    OnePoolEvolves(s.pools, PcOf(s, e.t).p, PoolOf(s, e.t).(refs := PoolOf(s, e.t).refs - 1));
  }

  lemma LastEvolves(s: State, e: Event)
    requires Enabled(s, e) && e.SwapRefs? && PcOf(s, e.t).Dec? && PoolOf(s, e.t).refs == PcOf(s, e.t).dec.v <= 1
    ensures Evolves(s.pools, Apply(s, e).pools)
  {
    var pool := PoolOf(s, e.t);
    OnePoolEvolves(s.pools, PcOf(s, e.t).p, pool.(refs := 0, shutdowns := pool.shutdowns + 1, worker := Some(e.t)));
  }

  lemma SwapEvolves(s: State, e: Event)
    requires Registry(s) && Enabled(s, e) && e.SwapRefs?
    ensures Evolves(s.pools, Apply(s, e).pools)
  {
    assert CallerOk(s.pools, s.prefs, s.pcs[e.t]);
    if PcOf(s, e.t).Login? {
      SwapIncEvolves(s, e);
    } else {
      SwapDecEvolves(s, e);
    }
  }

  lemma TokenEvolves(s: State, e: Event)
    requires Enabled(s, e) && PcOf(s, e.t).Token?
    ensures Evolves(s.pools, Apply(s, e).pools)
  {
    SamePools(s.pools);
    if e.TakeToken? || e.ReleaseToken? || e.GiveUp? {
      var p := PcOf(s, e.t).p;
      TokenTouches(s, e);
      OnePoolEvolves(s.pools, p, Apply(s, e).pools[p]);
    }
  }

  lemma TokenTouches(s: State, e: Event)
    requires Enabled(s, e) && PcOf(s, e.t).Token? && (e.TakeToken? || e.ReleaseToken? || e.GiveUp?)
    ensures var p := PcOf(s, e.t).p; var s' := Apply(s, e);
            |s'.pools| == |s.pools| && s'.pools == s.pools[p := s.pools[p].(sema := s'.pools[p].sema)]
  {
  }

  lemma SessionEvolves(s: State, e: Event)
    requires Enabled(s, e) && (e.CallGet? || e.CallCloseHandle?)
    ensures Evolves(s.pools, Apply(s, e).pools)
  {
    SamePools(s.pools);
  }

  lemma CallerEvolves(s: State, e: Event)
    requires Enabled(s, e) && !SessionEvent(s, e) && !PcOf(s, e.t).Work? && !e.SwapRefs?
    ensures Evolves(s.pools, Apply(s, e).pools)
  {
    SamePools(s.pools);
  }

  lemma StepEvolves(s: State, e: Event)
    requires Registry(s) && Enabled(s, e)
    ensures Evolves(s.pools, Apply(s, e).pools)
  {
    if PcOf(s, e.t).Work? {
      WorkEvolves(s, e);
    } else if e.SwapRefs? {
      SwapEvolves(s, e);
    } else if PcOf(s, e.t).Token? {
      TokenEvolves(s, e);
    } else if e.CallGet? || e.CallCloseHandle? {
      SessionEvolves(s, e);
    } else {
      CallerEvolves(s, e);
    }
  }

  lemma EvolvesTransitive(a: seq<Pool>, b: seq<Pool>, c: seq<Pool>)
    requires Evolves(a, b) && Evolves(b, c)
    ensures Evolves(a, c)
  {
    forall p | 0 <= p < |a| ensures PoolEvolves(a[p], c[p]) {
      assert PoolEvolves(a[p], b[p]) && PoolEvolves(b[p], c[p]);
    }
  }

  lemma {:induction false} ExecEvolves(s: State, es: seq<Event>)
    requires Valid(s) && !s.wrapped && Exec(s, es).Some? && !Exec(s, es).value.wrapped
    ensures Evolves(s.pools, Exec(s, es).value.pools)
    decreases |es|
  {
    if es == [] {
      SamePools(s.pools);
    } else {
      var s' := Apply(s, es[0]);
      StepValid(s, es[0]);
      if s'.wrapped {
        WrappedStays(s', es[1..]);
      } else {
        StepEvolves(s, es[0]);
        ExecEvolves(s', es[1..]);
        EvolvesTransitive(s.pools, s'.pools, Exec(s', es[1..]).value.pools);
      }
    }
  }

  lemma {:induction false} WrappedStays(s: State, es: seq<Event>)
    requires Exec(s, es).Some? && s.wrapped
    ensures Exec(s, es).value.wrapped
    decreases |es|
  {
    if es == [] {
    } else {
      WrappedStays(Apply(s, es[0]), es[1..]);
    }
  }

  /** Zero is final, and exactly one Drop shuts the pool down once it is reached. */
  lemma ZeroIsFinal(es: seq<Event>, later: seq<Event>, p: PoolId)
    requires Reaches(es) && Exec(After(es), later).Some? && !Exec(After(es), later).value.wrapped
    requires p < |After(es).pools| && After(es).pools[p].live && After(es).pools[p].refs == 0
    ensures var s := Exec(After(es), later).value;
            p < |s.pools| && s.pools[p].refs == 0 && s.pools[p].shutdowns == 1 == After(es).pools[p].shutdowns
  {
    ReachedValid(es);
    InitValid();
    ExecValid(Init(), es);
    ExecEvolves(After(es), later);
    ExecValid(After(es), later);
    var s := Exec(After(es), later).value;
    assert StageOk(s.pools[p], WorkOf(s.pools[p], s.pcs));
    assert StageOk(After(es).pools[p], WorkOf(After(es).pools[p], After(es).pcs));
  }

  // ---- One pool per key ---------------------------------------------------------------------------

  /** A pool is in the cache, under its own key, from its insertion until it removes itself; a pool
      whose dead channel is closed is not; no channel is ever closed twice; and a delete, by a
      rollback or by a Drop, removes the deleter's own pool. */
  lemma OnePoolPerKey(es: seq<Event>, p: PoolId, t: Thread)
    requires Reaches(es) && p < |After(es).pools|
    ensures var s := After(es); !s.panicked
    ensures var s := After(es); var k := s.pools[p].key;
            (!s.pools[p].removed <==> k in s.cache && s.cache[k] == p) && (s.pools[p].dead ==> s.pools[p].removed)
    ensures var s := After(es);
            Enabled(s, Remove(t)) ==> var q := PcOf(s, t).p; s.pools[q].key in s.cache && s.cache[s.pools[q].key] == q
  {
    ReachedValid(es);
    var s := After(es);
    StagesDead(s, p);
    if Enabled(s, Remove(t)) {
      var q := PcOf(s, t).p;
      assert s.pools[q].worker == Some(t) && StageOk(s.pools[q], WorkOf(s.pools[q], s.pcs));
    }
  }

  /** Each retry of Login finds a pool newer than every pool it found before, or none. */
  lemma LoginNeverRevisits(es: seq<Event>, t: Thread, q: PoolId)
    requires Reaches(es) && PcOf(After(es), t).Login? && q in PcOf(After(es), t).seen
    ensures var s := After(es); var pc := PcOf(s, t);
            q < |s.pools| && s.pools[q].dead && s.pools[q].key == pc.c.key &&
            (pc.c.key in s.cache ==> q < s.cache[pc.c.key]) &&
            (pc.at.AwaitLive? ==> q < pc.at.p)
  {
    ReachedValid(es);
    var s := After(es);
    assert CallerOk(s.pools, s.prefs, s.pcs[t]);
    StagesDead(s, q);
  }

  // ---- Sharing ------------------------------------------------------------------------------------

  /** Login returns references only to live pools with the caller's PIN that have not begun to shut
      down; the returned pool belongs to the requested key. */
  lemma LoginSharesLivePools(es: seq<Event>, e: Event)
    requires Reaches(es) && Enabled(After(es), e) && !Apply(After(es), e).wrapped
    requires var s := After(es); PcOf(s, e.t).Login? || PcOf(s, e.t).Work?
    requires var pc := PcOf(Apply(After(es), e), e.t); pc.Returned? && pc.result.LoggedIn?
    ensures var s := After(es); var s' := Apply(s, e); var r := PcOf(s', e.t).result.r;
            r == |s.prefs| && |s'.prefs| == r + 1 && !s'.prefs[r].dropped &&
            var pool := s'.pools[s'.prefs[r].pool];
            pool.live && pool.refs > 0 && pool.shutdowns == 0 && !pool.removed && pool.pin == s'.prefs[r].pin &&
            (PcOf(s, e.t).Login? ==> pool.pin == PcOf(s, e.t).c.pin && pool.key == PcOf(s, e.t).c.key)
  {
    ReachedValid(es);
    var s, s' := After(es), Apply(After(es), e);
    RegistryStep(s, e);
    NewReference(s, e);
    UndroppedPool(s', PcOf(s', e.t).result.r);
  }

  lemma NewReference(s: State, e: Event)
    requires Registry(s) && Enabled(s, e) && !Apply(s, e).wrapped && (PcOf(s, e.t).Login? || PcOf(s, e.t).Work?)
    requires var pc := PcOf(Apply(s, e), e.t); pc.Returned? && pc.result.LoggedIn?
    ensures var s' := Apply(s, e); var r := PcOf(s', e.t).result.r;
            r == |s.prefs| && |s'.prefs| == r + 1 && !s'.prefs[r].dropped && s'.prefs[r].pool < |s'.pools| &&
            var pool := s'.pools[s'.prefs[r].pool];
            PcOf(s, e.t).Login? ==> pool.pin == PcOf(s, e.t).c.pin && pool.key == PcOf(s, e.t).c.key
  {
    if PcOf(s, e.t).Login? {
      assert CallerOk(s.pools, s.prefs, s.pcs[e.t]);
      NewSharedReference(s, e);
    } else {
      NewOwnReference(s, e);
    }
  }

  lemma NewSharedReference(s: State, e: Event)
    requires Enabled(s, e) && !Apply(s, e).wrapped && PcOf(s, e.t).Login? && LoginOk(s.pools, PcOf(s, e.t))
    requires var pc := PcOf(Apply(s, e), e.t); pc.Returned? && pc.result.LoggedIn?
    ensures var s' := Apply(s, e); var r := PcOf(s', e.t).result.r;
            r == |s.prefs| && |s'.prefs| == r + 1 && !s'.prefs[r].dropped && s'.prefs[r].pool < |s'.pools| &&
            var pool := s'.pools[s'.prefs[r].pool];
            pool.pin == PcOf(s, e.t).c.pin && pool.key == PcOf(s, e.t).c.key
  {
  }

  lemma NewOwnReference(s: State, e: Event)
    requires Enabled(s, e) && PcOf(s, e.t).Work?
    requires var pc := PcOf(Apply(s, e), e.t); pc.Returned? && pc.result.LoggedIn?
    ensures var s' := Apply(s, e); var r := PcOf(s', e.t).result.r;
            r == |s.prefs| && |s'.prefs| == r + 1 && !s'.prefs[r].dropped && s'.prefs[r].pool < |s'.pools|
  {
  }

  lemma UndroppedPool(s: State, r: RefId)
    requires Registry(s) && r < |s.prefs| && !s.prefs[r].dropped
    ensures s.prefs[r].pool < |s.pools|
    ensures var pool := s.pools[s.prefs[r].pool];
            pool.live && pool.refs > 0 && pool.shutdowns == 0 && !pool.removed && !pool.sema.closed &&
            !pool.loggedOut && pool.main.Some? && pool.pin == s.prefs[r].pin
  {
    assert RefOk(s.pools, s.prefs[r]);
    var p := s.prefs[r].pool;
    assert Count(s.pools[p].refs, s.prefs, s.pcs, p) && r in Undropped(s.prefs, p);
    assert StageOk(s.pools[p], WorkOf(s.pools[p], s.pcs));
  }

  /** While any PoolRef to it is undropped, a pool is cached, its persistent session is open and the
      token is logged in. */
  lemma UndroppedKeepsLogin(es: seq<Event>, r: RefId)
    requires Reaches(es) && r < |After(es).prefs| && !After(es).prefs[r].dropped
    ensures var s := After(es);
            s.prefs[r].pool < |s.pools| &&
            var pool := s.pools[s.prefs[r].pool];
            pool.live && !pool.removed && !pool.sema.closed && pool.refs > 0 &&
            pool.main.Some? && pool.main.value in s.open && pool.key in s.loggedIn
  {
    ReachedValid(es);
    UndroppedPool(After(es), r);
  }

  /** Logout runs on a persistent session that was set, is open and is logged in. */
  lemma LogoutOnLoggedInSession(es: seq<Event>, t: Thread, ok: bool)
    requires Reaches(es) && Enabled(After(es), Logout(t, ok))
    ensures var s := After(es); var pool := s.pools[PcOf(s, t).p];
            pool.live && pool.main.Some? && pool.main.value in s.open && pool.key in s.loggedIn
  {
    ReachedValid(es);
    var s := After(es);
    var p := PcOf(s, t).p;
    assert s.pools[p].worker == Some(t) && StageOk(s.pools[p], WorkOf(s.pools[p], s.pcs));
  }

  /** A token is given back exactly once: whoever reaches Release, after a failed OpenSession or on
      the first Close of a handle, still has its token, so the semaphore never panics. */
  lemma ReleaseHoldsToken(es: seq<Event>, t: Thread)
    requires Reaches(es)
    requires PcOf(After(es), t).Token? && !PcOf(After(es), t).token.Getting?
    ensures var s := After(es); var pc := PcOf(s, t);
            pc.p < |s.pools| && pc.id in s.pools[pc.p].sema.holders &&
            (pc.token.Releasing? ==> Enabled(s, ReleaseToken(t)))
    ensures var s := After(es); forall u :: u != t && PcOf(s, u).Token? ==> PcOf(s, u).id != PcOf(s, t).id
    ensures var s := After(es);
            forall h :: 0 <= h < |s.handles| && !s.handles[h].closed ==> s.handles[h].id != PcOf(s, t).id
  {
    ReachedValid(es);
    var s := After(es);
    assert TokenOk(s.pools, s.slots, t, s.pcs[t]);
    forall u | u != t && PcOf(s, u).Token? ensures PcOf(s, u).id != PcOf(s, t).id {
      assert TokenOk(s.pools, s.slots, u, s.pcs[u]);
    }
    forall h | 0 <= h < |s.handles| && !s.handles[h].closed ensures s.handles[h].id != PcOf(s, t).id {
      assert HandleOk(s.pools, s.slots, h, s.handles[h]);
    }
  }

  // ---- What Login inserts --------------------------------------------------------------------------------

  /** A key without a pool gets a new one, unless its token bounds its sessions to fewer than two. The
      limit is the number of read-write sessions if the number of all sessions is bounded, and that of
      a uint if it is unknown or unbounded; one session is the pool's own. */
  lemma InsertsExactly(s: State, t: Thread)
    requires Enabled(s, FindPool(t)) && PcOf(s, t).c.key !in s.cache
    ensures var s' := Apply(s, FindPool(t)); var Login(c, _, _) := PcOf(s, t);
            var unbounded := c.info.maxSessionCount == 0 || c.info.maxSessionCount == 0xffff_ffff_ffff_ffff;
            var limit := if unbounded then 0xffff_ffff_ffff_ffff else c.info.maxRwSessionCount;
            if limit < 2 then s' == s.(pcs := s.pcs[t := Returned(LoginFailed)])
            else
              && s'.pools[..|s.pools|] == s.pools && |s'.pools| == |s.pools| + 1
              && s'.cache == s.cache[c.key := |s.pools|]
              && PcOf(s', t) == Work(c.app, |s.pools|, Opening)
              && var pool := s'.pools[|s.pools|];
                 pool.key == c.key && pool.mod == c.mod && pool.pin == c.pin && pool.refs == 1 &&
                 pool.max == limit && pool.sema.limit == limit - 1 && pool.sema.holders == {} && !pool.sema.closed
  {
  }

  /** What the shutdown's calls into the library do if they succeed: Logout ends the login of the pool's own
      token and of no other, and CloseAllSessions leaves that token without sessions and without a login,
      and every other session open. If they fail they do nothing. */
  lemma ShutdownEmptiesToken(s: State, t: Thread, ok: bool)
    ensures Enabled(s, Logout(t, ok)) ==>
      var s', key := Apply(s, Logout(t, ok)), PoolOf(s, t).key;
      s'.open == s.open && s'.loggedIn == if ok then s.loggedIn - {key} else s.loggedIn
    ensures Enabled(s, CloseAll(t, ok)) ==>
      var s', key := Apply(s, CloseAll(t, ok)), PoolOf(s, t).key;
      s'.loggedIn == (if ok then s.loggedIn - {key} else s.loggedIn) &&
      (ok ==> SessionsOf(s', key) == {} && forall id :: id in s.open && SessionKey(s, id) != Some(key) ==> id in s'.open) &&
      (!ok ==> s'.open == s.open)
  {
    if Enabled(s, CloseAll(t, ok)) {
      var s', key := Apply(s, CloseAll(t, ok)), PoolOf(s, t).key;
      forall id ensures SessionKey(s', id) == SessionKey(s, id) {
      }
      assert ok ==> SessionsOf(s', key) == {};
    }
  }

  /** A session that is closed ends the login of its token exactly if it was the last one open there; no other
      token and no other session notices, and a failed call does nothing. */
  lemma LastSessionLogsOut(s: State, key: Key, id: nat, ok: bool)
    requires id in SessionsOf(s, key) && key in s.loggedIn
    ensures var s' := CloseSession(s, key, id, ok);
            (key !in s'.loggedIn <==> ok && SessionsOf(s', key) == {}) &&
            (forall k :: k != key ==> (k in s'.loggedIn <==> k in s.loggedIn)) &&
            s'.open == if ok then s.open - {id} else s.open
  {
    var s' := CloseSession(s, key, id, ok);
    forall i ensures SessionKey(s', i) == SessionKey(s, i) {
    }
    assert SessionsOf(s', key) == if ok then SessionsOf(s, key) - {id} else SessionsOf(s, key);
  }
}
