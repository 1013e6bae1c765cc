/** How many sessions the pools of one key keep open on the token. */
module PoolBound {
  import opened Common
  import opened PoolProtocol
  import opened PoolInvariant
  import opened PoolSteps
  import opened PoolSafety

  /** The session is accounted for by a cached pool: its own session, or one under a token. */
  ghost predicate Backed(s: State, id: nat) {
    && id < |s.slots| && s.slots[id].pool < |s.pools|
    && var pool := s.pools[s.slots[id].pool];
       !pool.removed && (pool.main == Some(id) || id in pool.sema.holders)
  }

  /** Open sessions of the key that no cached pool accounts for. */
  ghost function Leaked(s: State, key: Key): set<nat> {
    set id | id in SessionsOf(s, key) && !Backed(s, id)
  }

  function Allowed(s: State, key: Key): nat {
    if key in s.cache && s.cache[key] < |s.pools| then s.pools[s.cache[key]].max else 0
  }

  lemma BackedWithinPool(s: State, key: Key)
    requires Registry(s)
    ensures SessionsOf(s, key) - Leaked(s, key) <=
            if key in s.cache then
              var pool := s.pools[s.cache[key]]; pool.sema.holders + (if pool.main.Some? then {pool.main.value} else {})
            else {}
  {
  }

  /** In every reachable state the open sessions of a key number at most the limit of its cached pool
      plus those that leaked. */
  lemma SessionsBounded(es: seq<Event>, key: Key)
    requires Reaches(es)
    ensures var s := After(es); |SessionsOf(s, key)| <= Allowed(s, key) + |Leaked(s, key)|
  {
    ReachedValid(es);
    var s := After(es);
    var backed := SessionsOf(s, key) - Leaked(s, key);
    BackedWithinPool(s, key);
    assert SessionsOf(s, key) == backed + Leaked(s, key);
    if key in s.cache {
      var pool := s.pools[s.cache[key]];
      assert StageOk(pool, WorkOf(pool, s.pcs));
      var main := if pool.main.Some? then {pool.main.value} else {};
      SubsetCount(backed, pool.sema.holders + main);
    }
  }

  // ---- Runs in which nothing leaks ----------------------------------------------------------------

  /** The events after which a session can stay open without a pool: a failed CloseSession or
      CloseAllSessions, and a Drop whose context ends before the tokens are back. */
  predicate Leaks(s: State, e: Event) {
    ((e.CloseTemp? || e.CloseMain? || e.CloseAll?) && !e.ok) || (e.GiveUp? && PcOf(s, e.t).Work?)
  }

  predicate NeverLeaks(s: State, es: seq<Event>)
    decreases |es|
  {
    es == [] || (Enabled(s, es[0]) ==> !Leaks(s, es[0]) && NeverLeaks(Apply(s, es[0]), es[1..]))
  }

  ghost predicate SessionSealed(s: State, id: nat) {
    && Backed(s, id)
    && !s.pools[s.slots[id].pool].emptied
    && match s.slots[id].owner
       case Main => true
       case OfHandle(h) => true
       case OfThread(t) => PcOf(s, t) == Token(s.slots[id].pool, id, ClosingSession)
       case Gone => false
  }

  ghost predicate SessionsSealed(s: State) {
    forall id :: id in s.open ==> SessionSealed(s, id)
  }

  /** Every pool that logged out had all its tokens back before. */
  ghost predicate DrainSealed(pools: seq<Pool>, pcs: map<Thread, Pc>) {
    && (forall p :: 0 <= p < |pools| && pools[p].loggedOut ==> pools[p].sema.drained)
    && (forall t :: t in pcs && pcs[t].Work? && pcs[t].work.LoggingOut? ==> pcs[t].work.clean)
  }

  ghost predicate Sealed(s: State) {
    SessionsSealed(s) && DrainSealed(s.pools, s.pcs)
  }

  /** Nothing a session is accounted for by is lost between s and s'. */
  ghost predicate KeepsAccount(s: State, s': State, t: Thread) {
    && |s.slots| <= |s'.slots|
    && (forall id :: id in s'.open ==> id in s.open)
    && (forall id :: id in s.open && id < |s.slots| ==> s'.slots[id] == s.slots[id])
    && s'.pcs == s.pcs[t := PcOf(s', t)]
    && (PcOf(s, t).Token? && PcOf(s, t).token.ClosingSession? ==> PcOf(s, t).id !in s'.open)
    && PoolsKeepAccount(s.pools, s'.pools)
  }

  ghost predicate PoolsKeepAccount(pools: seq<Pool>, pools': seq<Pool>) {
    && |pools| <= |pools'|
    && forall p :: 0 <= p < |pools| ==>
         pools'[p].removed == pools[p].removed && pools'[p].main == pools[p].main &&
         pools[p].sema.holders <= pools'[p].sema.holders && pools'[p].emptied == pools[p].emptied
  }

  lemma SealedKept(s: State, s': State, t: Thread)
    requires Sealed(s) && KeepsAccount(s, s', t)
    ensures SessionsSealed(s')
  {
    forall id | id in s'.open ensures SessionSealed(s', id) {
      assert SessionSealed(s, id);
    }
  }

  lemma FindKeepsAccount(s: State, e: Event)
    requires Enabled(s, e) && e.FindPool?
    ensures KeepsAccount(s, Apply(s, e), e.t)
  {
  }

  lemma CallersKeepAccount(s: State, e: Event)
    requires Enabled(s, e) && MovesOnly(s, e)
    ensures KeepsAccount(s, Apply(s, e), e.t)
  {
  }

  lemma SwapKeepsAccount(s: State, e: Event)
    requires Enabled(s, e) && !s.wrapped && !Apply(s, e).wrapped && e.SwapRefs?
    ensures KeepsAccount(s, Apply(s, e), e.t)
  {
  }

  lemma SetUpKeepsAccount(s: State, e: Event)
    requires Enabled(s, e) && PcOf(s, e.t).Work?
    requires e.LoginMain? || e.Bury? || (e.OpenMain? && !e.ok)
    ensures KeepsAccount(s, Apply(s, e), e.t)
  {
  }

  lemma ShutDownKeepsAccount(s: State, e: Event)
    requires Enabled(s, e) && PcOf(s, e.t).Work? && (e.ShutSemaphore? || e.Drained? || e.Logout?)
    ensures KeepsAccount(s, Apply(s, e), e.t)
  {
  }

  lemma TokenKeepsAccount(s: State, e: Event)
    requires Enabled(s, e)
    requires e.TakeToken? || (e.CloseTemp? && e.ok) || (e.OpenTemp? && !e.ok)
    ensures KeepsAccount(s, Apply(s, e), e.t)
  {
  }

  lemma GetKeepsAccount(s: State, e: Event)
    requires Enabled(s, e) && e.CallGet?
    ensures KeepsAccount(s, Apply(s, e), e.t)
  {
  }

  /** The token that t gives back or gives up has no open session. */
  lemma NoSessionAt(s: State, t: Thread)
    requires Tokens(s) && SessionsSealed(s) && PcOf(s, t).Token? && !PcOf(s, t).token.ClosingSession?
    ensures PcOf(s, t).id !in s.open
  {
    assert TokenOk(s.pools, s.slots, t, s.pcs[t]);
    assert PcOf(s, t).id in s.open ==> SessionSealed(s, PcOf(s, t).id);
  }

  lemma SealedReturn(s: State, e: Event)
    requires Tokens(s) && Sealed(s) && Enabled(s, e) && (e.ReleaseToken? || (e.GiveUp? && PcOf(s, e.t).Token?))
    ensures SessionsSealed(Apply(s, e))
  {
    var t, s' := e.t, Apply(s, e);
    var Token(p, id, _) := PcOf(s, t);
    NoSessionAt(s, t);
    var pool := s'.pools[p];
    assert s'.pools == s.pools[p := pool] && s'.open == s.open && s'.pcs == s.pcs[t := PcOf(s', t)];
    assert pool.removed == s.pools[p].removed && pool.main == s.pools[p].main && pool.emptied == s.pools[p].emptied;
    assert s.pools[p].sema.holders - {id} <= pool.sema.holders;
    forall i | i in s'.open ensures SessionSealed(s', i) {
      assert SessionSealed(s, i);
      assert s'.slots[i] == s.slots[i];
    }
  }

  /** A session is opened under a free number of a pool that is neither removed nor emptied. */
  lemma SealedNewSession(s: State, s': State, t: Thread, p: PoolId, pool: Pool, id: nat, owner: Owner)
    requires SessionsSealed(s) && p < |s.pools| && id !in s.open
    requires s'.pools == s.pools[p := pool] && s'.open == s.open + {id} && s'.pcs == s.pcs[t := PcOf(s', t)]
    requires PcOf(s, t).Token? ==> PcOf(s, t).id == id
    requires |s.slots| <= |s'.slots| && id < |s'.slots| && s'.slots[id] == Slot(p, owner)
    requires forall i :: 0 <= i < |s.slots| && i != id ==> s'.slots[i] == s.slots[i]
    requires !pool.removed && !pool.emptied && (pool.main == Some(id) || id in pool.sema.holders)
    requires s.pools[p].sema.holders <= pool.sema.holders
    requires pool.main == s.pools[p].main || s.pools[p].main == None
    requires owner.Main? || owner.OfHandle?
    ensures SessionsSealed(s')
  {
    forall i | i in s'.open ensures SessionSealed(s', i) {
      if i != id {
        assert SessionSealed(s, i);
      }
    }
  }

  lemma OpenTempShape(s: State, e: Event)
    requires Enabled(s, e) && e.OpenTemp? && e.ok
    requires PcOf(s, e.t).id < |s.slots| && s.slots[PcOf(s, e.t).id].pool == PcOf(s, e.t).p
    ensures var s' := Apply(s, e); var Token(p, id, _) := PcOf(s, e.t);
            s'.pools == s.pools[p := s.pools[p]] && s'.open == s.open + {id} && s'.pcs == s.pcs[e.t := PcOf(s', e.t)] &&
            s'.slots == s.slots[id := Slot(p, OfHandle(|s.handles|))]
  {
    assert s.pools == s.pools[PcOf(s, e.t).p := s.pools[PcOf(s, e.t).p]];
  }

  lemma SealedOpenTemp(s: State, e: Event)
    requires Registry(s) && Tokens(s) && Sealed(s) && Enabled(s, e) && e.OpenTemp? && e.ok
    ensures SessionsSealed(Apply(s, e))
  {
    var t, s' := e.t, Apply(s, e);
    var Token(p, id, _) := PcOf(s, t);
    assert TokenOk(s.pools, s.slots, t, s.pcs[t]);
    NoSessionAt(s, t);
    HoldersKeepPool(s, p, id);
    OpenTempShape(s, e);
    SealedNewSession(s, s', t, p, s.pools[p], id, OfHandle(|s.handles|));
  }

  /** A pool that still has holders was neither removed nor emptied. */
  lemma HoldersKeepPool(s: State, p: PoolId, id: nat)
    requires Registry(s) && DrainSealed(s.pools, s.pcs) && p < |s.pools| && s.pools[p].live && id in s.pools[p].sema.holders
    ensures !s.pools[p].removed && !s.pools[p].emptied
  {
    assert StageOk(s.pools[p], WorkOf(s.pools[p], s.pcs));
  }

  lemma SealedCloseHandle(s: State, e: Event)
    requires Tokens(s) && Sealed(s) && Enabled(s, e) && e.CallCloseHandle?
    ensures SessionsSealed(Apply(s, e))
  {
    var t, s', handle := e.t, Apply(s, e), s.handles[e.h];
    assert HandleOk(s.pools, s.slots, e.h, handle);
    if handle.closed {
      SealedKept(s, s', t);
    } else {
      var p, id := handle.pool, handle.id;
      assert s'.pools == s.pools && s'.open == s.open && s'.pcs == s.pcs[t := Token(p, id, ClosingSession)];
      assert s'.slots == s.slots[id := Slot(p, OfThread(t))];
      forall i | i in s'.open ensures SessionSealed(s', i) {
        assert SessionSealed(s, i);
      }
    }
  }

  lemma OpenMainShape(s: State, e: Event)
    requires Enabled(s, e) && e.OpenMain? && e.ok
    ensures var s' := Apply(s, e); var p := PcOf(s, e.t).p;
            s'.pools == s.pools[p := s.pools[p].(main := Some(|s.slots|))] && s'.slots == s.slots + [Slot(p, Main)] &&
            s'.open == s.open + {|s.slots|} && s'.pcs == s.pcs[e.t := PcOf(s', e.t)]
  {
  }

  lemma SealedOpenMain(s: State, e: Event)
    requires Registry(s) && Sessions(s) && Sealed(s) && Enabled(s, e) && e.OpenMain? && e.ok
    ensures SessionsSealed(Apply(s, e))
  {
    var t, s', p, id := e.t, Apply(s, e), PcOf(s, e.t).p, |s.slots|;
    assert s.pools[p].worker == Some(t) && StageOk(s.pools[p], WorkOf(s.pools[p], s.pcs));
    OpenMainShape(s, e);
    SealedNewSession(s, s', t, p, s.pools[p].(main := Some(id)), id, Main);
  }

  lemma CloseMainShape(s: State, e: Event)
    requires Enabled(s, e) && e.CloseMain? && e.ok && PcOf(s, e.t).work.id < |s.slots|
    ensures var s' := Apply(s, e); var p := PcOf(s, e.t).p; var id := PcOf(s, e.t).work.id;
            s'.pools == s.pools[p := s.pools[p].(main := None)] && s'.open == s.open - {id} &&
            s'.slots == s.slots[id := s.slots[id].(owner := Gone)] && s'.pcs == s.pcs[e.t := PcOf(s', e.t)]
  {
  }

  /** A session that the setup of pool p did not open stays accounted for when that setup unwinds. */
  lemma SealedBesideMain(s: State, s': State, t: Thread, p: PoolId, id: nat, i: nat)
    requires p < |s.pools| && id < |s.slots| && i != id && SessionSealed(s, i)
    requires s'.pools == s.pools[p := s.pools[p].(main := None)] && s.pools[p].main == Some(id)
    requires s'.slots == s.slots[id := s.slots[id].(owner := Gone)] && s'.pcs == s.pcs[t := PcOf(s', t)]
    requires PcOf(s, t).Work?
    ensures SessionSealed(s', i)
  {
  }

  lemma SealedCloseMain(s: State, e: Event)
    requires Registry(s) && Tokens(s) && Sealed(s) && Enabled(s, e) && e.CloseMain? && e.ok
    ensures SessionsSealed(Apply(s, e))
  {
    var s', p, id := Apply(s, e), PcOf(s, e.t).p, PcOf(s, e.t).work.id;
    WorkerStage(s, e.t);
    assert MainOk(s.slots, s.pools[p], p);
    CloseMainShape(s, e);
    forall i | i in s'.open ensures SessionSealed(s', i) {
      SealedBesideMain(s, s', e.t, p, id, i);
    }
  }

  lemma SealedCloseAll(s: State, e: Event)
    requires Registry(s) && Sealed(s) && Enabled(s, e) && e.CloseAll? && e.ok
    ensures SessionsSealed(Apply(s, e))
  {
    var t, s', p := e.t, Apply(s, e), PcOf(s, e.t).p;
    assert s'.pools == s.pools[p := s.pools[p].(emptied := true)] && s'.open == s.open - SessionsOf(s, s.pools[p].key);
    assert s'.slots == s.slots && s'.pcs == s.pcs[t := PcOf(s', t)];
    forall i | i in s'.open ensures SessionSealed(s', i) {
      assert SessionSealed(s, i);
      assert i !in SessionsOf(s, s.pools[p].key);
    }
  }

  lemma SealedRemove(s: State, e: Event)
    requires Registry(s) && Sealed(s) && Enabled(s, e) && e.Remove?
    ensures SessionsSealed(Apply(s, e))
  {
    var t, s', p := e.t, Apply(s, e), PcOf(s, e.t).p;
    assert s.pools[p].worker == Some(t) && StageOk(s.pools[p], WorkOf(s.pools[p], s.pcs));
    assert s'.pools == s.pools[p := s.pools[p].(removed := true)] && s'.open == s.open;
    assert s'.slots == s.slots && s'.pcs == s.pcs[t := PcOf(s', t)];
    forall i | i in s'.open ensures SessionSealed(s', i) {
      assert SessionSealed(s, i);
    }
  }

  lemma SealedStepSession(s: State, e: Event)
    requires Registry(s) && Tokens(s) && Sealed(s) && Enabled(s, e) && !Leaks(s, e) && SessionEvent(s, e)
    ensures SessionsSealed(Apply(s, e))
  {
    if e.CallGet? {
      GetKeepsAccount(s, e);
      SealedKept(s, Apply(s, e), e.t);
    } else if e.CallCloseHandle? {
      SealedCloseHandle(s, e);
    } else if e.OpenTemp? && e.ok {
      SealedOpenTemp(s, e);
    } else if e.ReleaseToken? || e.GiveUp? {
      SealedReturn(s, e);
    } else {
      TokenKeepsAccount(s, e);
      SealedKept(s, Apply(s, e), e.t);
    }
  }

  lemma SealedStepWork(s: State, e: Event)
    requires Registry(s) && Tokens(s) && Sessions(s) && Sealed(s) && Enabled(s, e) && !Leaks(s, e) && PcOf(s, e.t).Work?
    ensures SessionsSealed(Apply(s, e))
  {
    if e.OpenMain? && e.ok {
      SealedOpenMain(s, e);
    } else if e.CloseMain? {
      SealedCloseMain(s, e);
    } else if e.CloseAll? {
      SealedCloseAll(s, e);
    } else if e.Remove? {
      SealedRemove(s, e);
    } else {
      if ForSetUp(e) {
        SetUpKeepsAccount(s, e);
      } else {
        ShutDownKeepsAccount(s, e);
      }
      SealedKept(s, Apply(s, e), e.t);
    }
  }

  lemma SealedStepCaller(s: State, e: Event)
    requires Registry(s) && Tokens(s) && Sealed(s) && Enabled(s, e) && !Leaks(s, e) && !s.wrapped && !Apply(s, e).wrapped
    requires !SessionEvent(s, e) && !PcOf(s, e.t).Work?
    ensures SessionsSealed(Apply(s, e))
  {
    if e.SwapRefs? {
      SwapKeepsAccount(s, e);
    } else if e.FindPool? {
      FindKeepsAccount(s, e);
    } else {
      CallersKeepAccount(s, e);
    }
    SealedKept(s, Apply(s, e), e.t);
  }

  lemma SessionsSealedStep(s: State, e: Event)
    requires Registry(s) && Tokens(s) && Sessions(s) && Sealed(s) && Enabled(s, e) && !Leaks(s, e)
    requires !s.wrapped && !Apply(s, e).wrapped
    ensures SessionsSealed(Apply(s, e))
  {
    if SessionEvent(s, e) {
      SealedStepSession(s, e);
    } else if PcOf(s, e.t).Work? {
      SealedStepWork(s, e);
    } else {
      SealedStepCaller(s, e);
    }
  }

  lemma DrainSealedWork(s: State, e: Event)
    requires Registry(s) && DrainSealed(s.pools, s.pcs) && Enabled(s, e) && !Leaks(s, e) && PcOf(s, e.t).Work?
    ensures DrainSealed(Apply(s, e).pools, Apply(s, e).pcs)
  {
    WorkerStage(s, e.t);
    DrainsKept(s, e);
    DrainSealedMove(s.pools, s.pcs, PcOf(s, e.t).p, Apply(s, e).pools[PcOf(s, e.t).p], e.t, PcOf(Apply(s, e), e.t));
  }

  lemma DrainSealedMove(pools: seq<Pool>, pcs: map<Thread, Pc>, p: PoolId, pool: Pool, t: Thread, pc: Pc)
    requires DrainSealed(pools, pcs) && p < |pools|
    requires pool.loggedOut ==> pool.sema.drained || pools[p].loggedOut
    requires pools[p].sema.drained ==> pool.sema.drained
    requires pc.Work? && pc.work.LoggingOut? ==> pc.work.clean
    ensures DrainSealed(pools[p := pool], pcs[t := pc])
  {
  }

  lemma DrainsKept(s: State, e: Event)
    requires Enabled(s, e) && !Leaks(s, e) && PcOf(s, e.t).Work?
    requires PcOf(s, e.t).work.LoggingOut? ==> PoolOf(s, e.t).sema.drained
    ensures var p := PcOf(s, e.t).p; var s' := Apply(s, e); var pc := PcOf(s', e.t);
            s'.pools == s.pools[p := s'.pools[p]] && s'.pcs == s.pcs[e.t := pc] &&
            (s'.pools[p].loggedOut ==> s'.pools[p].sema.drained || s.pools[p].loggedOut) &&
            (s.pools[p].sema.drained ==> s'.pools[p].sema.drained) &&
            (pc.Work? && pc.work.LoggingOut? ==> pc.work.clean)
  {
  }

  lemma DrainSealedStep(s: State, e: Event)
    requires Registry(s) && DrainSealed(s.pools, s.pcs) && Enabled(s, e) && !Leaks(s, e)
    requires !s.wrapped && !Apply(s, e).wrapped
    ensures DrainSealed(Apply(s, e).pools, Apply(s, e).pcs)
  {
    if PcOf(s, e.t).Work? {
      DrainSealedWork(s, e);
    } else {
      DrainsElsewhere(s, e);
    }
  }

  lemma DrainsElsewhere(s: State, e: Event)
    requires DrainSealed(s.pools, s.pcs) && Enabled(s, e) && !PcOf(s, e.t).Work?
    ensures DrainSealed(Apply(s, e).pools, Apply(s, e).pcs)
  {
    if SessionEvent(s, e) {
      DrainsSession(s, e);
    } else {
      DrainsCaller(s, e);
    }
  }

  lemma DrainsSession(s: State, e: Event)
    requires DrainSealed(s.pools, s.pcs) && Enabled(s, e) && !PcOf(s, e.t).Work? && SessionEvent(s, e)
    ensures DrainSealed(Apply(s, e).pools, Apply(s, e).pcs)
  {
    if PcOf(s, e.t).Token? {
      DrainsToken(s, e);
    } else {
      DrainsGet(s, e);
    }
  }

  lemma DrainsToken(s: State, e: Event)
    requires DrainSealed(s.pools, s.pcs) && Enabled(s, e) && PcOf(s, e.t).Token?
    ensures DrainSealed(Apply(s, e).pools, Apply(s, e).pcs)
  {
  }

  lemma DrainsGet(s: State, e: Event)
    requires DrainSealed(s.pools, s.pcs) && Enabled(s, e) && (e.CallGet? || e.CallCloseHandle?)
    ensures DrainSealed(Apply(s, e).pools, Apply(s, e).pcs)
  {
  }

  lemma DrainsFind(s: State, e: Event)
    requires DrainSealed(s.pools, s.pcs) && Enabled(s, e) && e.FindPool?
    ensures DrainSealed(Apply(s, e).pools, Apply(s, e).pcs)
  {
  }

  lemma DrainsSwap(s: State, e: Event)
    requires DrainSealed(s.pools, s.pcs) && Enabled(s, e) && e.SwapRefs?
    ensures DrainSealed(Apply(s, e).pools, Apply(s, e).pcs)
  {
  }

  lemma DrainsMove(s: State, e: Event)
    requires DrainSealed(s.pools, s.pcs) && Enabled(s, e) && MovesOnly(s, e)
    ensures DrainSealed(Apply(s, e).pools, Apply(s, e).pcs)
  {
  }

  lemma DrainsCaller(s: State, e: Event)
    requires DrainSealed(s.pools, s.pcs) && Enabled(s, e) && !PcOf(s, e.t).Work? && !SessionEvent(s, e)
    ensures DrainSealed(Apply(s, e).pools, Apply(s, e).pcs)
  {
    if e.FindPool? {
      DrainsFind(s, e);
    } else if e.SwapRefs? {
      DrainsSwap(s, e);
    } else {
      DrainsMove(s, e);
    }
  }
}
