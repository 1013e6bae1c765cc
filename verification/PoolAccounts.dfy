/** Exactly when a session of a pool stays open with no cached pool to account for it. */
module PoolAccounts {
  import opened Common
  import opened PoolProtocol
  import opened PoolInvariant
  import opened PoolSteps
  import opened PoolSafety
  import opened PoolBound

  /** No session is open that a cached pool does not account for. */
  ghost predicate AllBacked(s: State) {
    forall id :: id in s.open ==> Backed(s, id)
  }

  /** The guards of the events after which a session is unaccounted for: a pool is deleted from the
      cache while a session of it is open; a token is given back while its session is open; the
      CloseSession of a rollback fails; a session is opened under a token of a deleted pool. */
  ghost predicate Strands(s: State, e: Event)
    requires Enabled(s, e)
  {
    match e
    case Remove(t) => exists id :: id in s.open && id < |s.slots| && s.slots[id].pool == PcOf(s, t).p
    case ReleaseToken(t) => PcOf(s, t).id in s.open
    case CloseMain(_, ok) => !ok
    case OpenTemp(t, ok) => ok && PoolOf(s, t).removed
    case _ => false
  }

  // ---- Events that strand nothing -------------------------------------------------------------------

  /** Apart from the sessions in `gone`, everything a cached pool accounts for it still accounts for. */
  ghost predicate Accounts(s: State, s': State, gone: set<nat>) {
    && |s.slots| <= |s'.slots| && (forall id :: 0 <= id < |s.slots| ==> s'.slots[id].pool == s.slots[id].pool)
    && |s.pools| <= |s'.pools| && forall p :: 0 <= p < |s.pools| ==> PoolAccounts(s.pools[p], s'.pools[p], gone)
  }

  ghost predicate PoolAccounts(pool: Pool, pool': Pool, gone: set<nat>) {
    && (pool'.removed ==> pool.removed)
    && (pool.main.Some? ==> pool'.main == pool.main || pool.main.value in gone)
    && pool.sema.holders - gone <= pool'.sema.holders
  }

  lemma StillBacked(s: State, s': State, gone: set<nat>)
    requires AllBacked(s) && Accounts(s, s', gone)
    requires forall id :: id in s'.open ==> Backed(s', id) || (id in s.open && id !in gone)
    ensures AllBacked(s')
  {
    forall id | id in s'.open ensures Backed(s', id) {
      if id in s.open && id !in gone {
        assert Backed(s, id);
        assert PoolAccounts(s.pools[s.slots[id].pool], s'.pools[s.slots[id].pool], gone);
      }
    }
  }

  lemma FindAccounts(s: State, e: Event)
    requires Enabled(s, e) && e.FindPool?
    ensures Accounts(s, Apply(s, e), {}) && Apply(s, e).open == s.open
  {
  }

  lemma CallersAccount(s: State, e: Event)
    requires Enabled(s, e) && MovesOnly(s, e)
    ensures Accounts(s, Apply(s, e), {}) && Apply(s, e).open == s.open
  {
  }

  lemma SwapAccounts(s: State, e: Event)
    requires Enabled(s, e) && e.SwapRefs?
    ensures Accounts(s, Apply(s, e), {}) && Apply(s, e).open == s.open
  {
  }

  lemma WorkAccounts(s: State, e: Event)
    requires Enabled(s, e) && PcOf(s, e.t).Work? && !e.CloseMain? && !e.Remove? && !(e.OpenMain? && e.ok)
    ensures Accounts(s, Apply(s, e), {}) && Apply(s, e).open <= s.open
  {
  }

  lemma TokenAccounts(s: State, e: Event)
    requires Enabled(s, e) && (e.TakeToken? || e.CloseTemp? || (e.GiveUp? && PcOf(s, e.t).Token?) || (e.OpenTemp? && !e.ok))
    ensures Accounts(s, Apply(s, e), {}) && Apply(s, e).open <= s.open
  {
  }

  lemma GetAccounts(s: State, e: Event)
    requires Enabled(s, e) && (e.CallGet? || e.CallCloseHandle?)
    ensures Accounts(s, Apply(s, e), {}) && Apply(s, e).open == s.open
  {
  }

  lemma ReturnAccounts(s: State, e: Event)
    requires Enabled(s, e) && e.ReleaseToken?
    ensures Accounts(s, Apply(s, e), {PcOf(s, e.t).id}) && Apply(s, e).open == s.open
  {
  }

  // ---- Events that open a session or lose one --------------------------------------------------------

  lemma OpenMainBacked(s: State, e: Event)
    requires Registry(s) && AllBacked(s) && Enabled(s, e) && e.OpenMain? && e.ok
    ensures AllBacked(Apply(s, e))
  {
    WorkerStage(s, e.t);
    OpenMainShape(s, e);
    StillBacked(s, Apply(s, e), {});
  }

  lemma OpenTempBacked(s: State, e: Event)
    requires Tokens(s) && AllBacked(s) && Enabled(s, e) && e.OpenTemp? && e.ok
    ensures AllBacked(Apply(s, e)) <==> !Strands(s, e)
  {
    var Token(p, id, _) := PcOf(s, e.t);
    assert TokenOk(s.pools, s.slots, e.t, s.pcs[e.t]);
    OpenTempShape(s, e);
    assert Backed(Apply(s, e), id) <==> !s.pools[p].removed;
    if !s.pools[p].removed {
      StillBacked(s, Apply(s, e), {});
    }
  }

  lemma ReturnBacked(s: State, e: Event)
    requires Tokens(s) && AllBacked(s) && Enabled(s, e) && e.ReleaseToken?
    ensures AllBacked(Apply(s, e)) <==> !Strands(s, e)
  {
    var id, s' := PcOf(s, e.t).id, Apply(s, e);
    assert TokenOk(s.pools, s.slots, e.t, s.pcs[e.t]);
    ReturnAccounts(s, e);
    if id in s.open {
      ReturnedUnbacked(s, e);
    } else {
      StillBacked(s, s', {id});
    }
  }

  lemma ReturnedUnbacked(s: State, e: Event)
    requires Tokens(s) && Enabled(s, e) && e.ReleaseToken?
    ensures !Backed(Apply(s, e), PcOf(s, e.t).id)
  {
    var Token(p, id, _) := PcOf(s, e.t);
    assert TokenOk(s.pools, s.slots, e.t, s.pcs[e.t]) && MainOk(s.slots, s.pools[p], p);
  }

  lemma CloseMainBacked(s: State, e: Event)
    requires Registry(s) && Tokens(s) && Sessions(s) && AllBacked(s) && Enabled(s, e) && e.CloseMain?
    ensures AllBacked(Apply(s, e)) <==> !Strands(s, e)
  {
    var Work(_, p, work) := PcOf(s, e.t);
    WorkerStage(s, e.t);
    assert MainOk(s.slots, s.pools[p], p);
    if e.ok {
      UnwoundBacked(s, e);
    } else {
      UnwoundUnbacked(s, e);
    }
  }

  lemma UnwoundBacked(s: State, e: Event)
    requires AllBacked(s) && Enabled(s, e) && e.CloseMain? && e.ok
    requires PcOf(s, e.t).work.id < |s.slots| && PoolOf(s, e.t).main == Some(PcOf(s, e.t).work.id)
    ensures AllBacked(Apply(s, e))
  {
    CloseMainShape(s, e);
    StillBacked(s, Apply(s, e), {PcOf(s, e.t).work.id});
  }

  lemma UnwoundUnbacked(s: State, e: Event)
    requires Enabled(s, e) && e.CloseMain? && !e.ok && PoolOf(s, e.t).sema.holders == {}
    requires var id := PcOf(s, e.t).work.id; id in s.open && id < |s.slots| && s.slots[id].pool == PcOf(s, e.t).p
    ensures var id := PcOf(s, e.t).work.id; id in Apply(s, e).open && !Backed(Apply(s, e), id)
  {
  }

  lemma RemoveShape(s: State, e: Event)
    requires Enabled(s, e) && e.Remove?
    ensures var p := PcOf(s, e.t).p; var s' := Apply(s, e);
            s'.pools == s.pools[p := s.pools[p].(removed := true)] && s'.open == s.open && s'.slots == s.slots
  {
  }

  lemma RemoveBacked(s: State, e: Event)
    requires AllBacked(s) && Enabled(s, e) && e.Remove?
    ensures AllBacked(Apply(s, e)) <==> !Strands(s, e)
  {
    var p, s' := PcOf(s, e.t).p, Apply(s, e);
    RemoveShape(s, e);
    forall id | id in s.open ensures Backed(s', id) <==> s.slots[id].pool != p {
      assert Backed(s, id);
    }
  }

  // ---- The exact guard -------------------------------------------------------------------------------

  lemma SessionEventBacked(s: State, e: Event)
    requires Tokens(s) && AllBacked(s) && Enabled(s, e) && SessionEvent(s, e)
    ensures AllBacked(Apply(s, e)) <==> !Strands(s, e)
  {
    if e.OpenTemp? && e.ok {
      OpenTempBacked(s, e);
    } else if e.ReleaseToken? {
      ReturnBacked(s, e);
    } else if e.CallGet? || e.CallCloseHandle? {
      GetAccounts(s, e);
      StillBacked(s, Apply(s, e), {});
    } else {
      TokenAccounts(s, e);
      StillBacked(s, Apply(s, e), {});
    }
  }

  lemma WorkEventBacked(s: State, e: Event)
    requires Registry(s) && Tokens(s) && Sessions(s) && AllBacked(s) && Enabled(s, e) && PcOf(s, e.t).Work?
    ensures AllBacked(Apply(s, e)) <==> !Strands(s, e)
  {
    if e.OpenMain? && e.ok {
      OpenMainBacked(s, e);
    } else if e.CloseMain? {
      CloseMainBacked(s, e);
    } else if e.Remove? {
      RemoveBacked(s, e);
    } else {
      WorkAccounts(s, e);
      StillBacked(s, Apply(s, e), {});
    }
  }

  /** In a state that accounts for every session, an event strands one if and only if its guard is met. */
  lemma StrandsExactly(s: State, e: Event)
    requires Registry(s) && Tokens(s) && Sessions(s) && AllBacked(s) && Enabled(s, e)
    ensures AllBacked(Apply(s, e)) <==> !Strands(s, e)
  {
    if SessionEvent(s, e) {
      SessionEventBacked(s, e);
    } else if PcOf(s, e.t).Work? {
      WorkEventBacked(s, e);
    } else {
      if e.SwapRefs? {
        SwapAccounts(s, e);
      } else if e.FindPool? {
        FindAccounts(s, e);
      } else {
        CallersAccount(s, e);
      }
      StillBacked(s, Apply(s, e), {});
    }
  }

  /** Every state of the run accounts for every open session. */
  ghost predicate AlwaysBacked(s: State, es: seq<Event>)
    decreases |es|
  {
    AllBacked(s) && (es != [] && Enabled(s, es[0]) ==> AlwaysBacked(Apply(s, es[0]), es[1..]))
  }

  ghost predicate NeverStrands(s: State, es: seq<Event>)
    decreases |es|
  {
    es != [] && Enabled(s, es[0]) ==> !Strands(s, es[0]) && NeverStrands(Apply(s, es[0]), es[1..])
  }

  lemma {:induction false} ExecStrandsExactly(s: State, es: seq<Event>)
    requires Valid(s) && AllBacked(s) && Exec(s, es).Some? && !Exec(s, es).value.wrapped
    ensures AlwaysBacked(s, es) <==> NeverStrands(s, es)
    decreases |es|
  {
    if es == [] {
    } else {
      if s.wrapped {
        WrappedStays(s, es);
      }
      StrandsExactly(s, es[0]);
      StepValid(s, es[0]);
      if AllBacked(Apply(s, es[0])) {
        ExecStrandsExactly(Apply(s, es[0]), es[1..]);
      }
    }
  }

  /** Over a run, no session is ever unaccounted for if and only if none of the guards is ever met. */
  lemma AccountedIffNeverStranded(es: seq<Event>)
    requires Reaches(es)
    ensures AlwaysBacked(Init(), es) <==> NeverStrands(Init(), es)
  {
    InitValid();
    ExecStrandsExactly(Init(), es);
  }

  lemma {:induction false} LastBacked(s: State, es: seq<Event>)
    requires AlwaysBacked(s, es) && Exec(s, es).Some?
    ensures AllBacked(Exec(s, es).value)
    decreases |es|
  {
    if es == [] {
    } else {
      LastBacked(Apply(s, es[0]), es[1..]);
    }
  }

  /** If no guard is met, the sessions the pools of a key keep open never exceed the limit of its cached
      pool, across rollbacks, failed OpenSession calls, double Handle.Close, successive pools and
      drains that fail: a Drop may run out of time, and CloseAllSessions may fail as long as the
      sessions are closed before the pool is deleted. */
  lemma SessionLimitKept(es: seq<Event>, key: Key)
    requires Reaches(es) && NeverStrands(Init(), es)
    ensures var s := After(es); |SessionsOf(s, key)| <= Allowed(s, key)
  {
    AccountedIffNeverStranded(es);
    LastBacked(Init(), es);
    SessionsBounded(es, key);
    assert Leaked(After(es), key) == {};
  }

  // ---- Runs in which the library and the drains succeed ------------------------------------------------

  lemma SealedBacked(s: State)
    requires SessionsSealed(s)
    ensures AllBacked(s)
  {
    forall id | id in s.open ensures Backed(s, id) {
      assert SessionSealed(s, id);
    }
  }

  lemma {:induction false} SealedAlwaysBacked(s: State, es: seq<Event>)
    requires Valid(s) && Sealed(s) && Exec(s, es).Some? && !Exec(s, es).value.wrapped && NeverLeaks(s, es)
    ensures AlwaysBacked(s, es)
    decreases |es|
  {
    SealedBacked(s);
    if es == [] {
    } else {
      var s' := Apply(s, es[0]);
      StepValid(s, es[0]);
      if s'.wrapped {
        WrappedStays(s', es[1..]);
      } else {
        SealedStep(s, es[0]);
        SealedAlwaysBacked(s', es[1..]);
      }
    }
  }

  lemma SealedStep(s: State, e: Event)
    requires Valid(s) && Sealed(s) && Enabled(s, e) && !Leaks(s, e) && !s.wrapped && !Apply(s, e).wrapped
    ensures Valid(Apply(s, e)) && Sealed(Apply(s, e))
  {
    StepValid(s, e);
    SessionsSealedStep(s, e);
    DrainSealedStep(s, e);
  }

  /** As long as sessions are closed when asked to and every Drop that shuts a pool down gets its
      tokens back, no guard is met. */
  lemma CleanRunsStrandNothing(es: seq<Event>)
    requires Reaches(es) && NeverLeaks(Init(), es)
    ensures NeverStrands(Init(), es)
  {
    InitValid();
    SealedAlwaysBacked(Init(), es);
    AccountedIffNeverStranded(es);
  }
}
