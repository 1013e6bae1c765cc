/** Exactly when a call into a library, or a token of a pool, is left with a library that was
    finalized. */
module LifetimeReach {
  import opened Common
  import opened Lifetime
  import opened LifetimeSafety
  import opened LifetimeSteps
  import P = PoolProtocol
  import PI = PoolInvariant
  import PS = PoolSteps
  import SF = PoolSafety
  import M = ModuleCache

  /** The library of every pool with a token out is loaded and initialized. */
  ghost predicate TokensReach(s: State) {
    forall p :: 0 <= p < |s.p.pools| && s.p.pools[p].sema.holders != {} ==> Alive(s.c, s.p.pools[p].mod)
  }

  /** Every call into a library that a thread is about to make reaches one that is loaded and
      initialized. */
  ghost predicate CallsReach(s: State) {
    forall t :: t in s.p.pcs && Calls(s.p.pcs[t]).Some? ==> CallReaches(s, s.p.pcs[t])
  }

  ghost predicate CallReaches(s: State, pc: P.Pc)
    requires Calls(pc).Some?
  {
    Calls(pc).value < |s.p.pools| && Alive(s.c, s.p.pools[Calls(pc).value].mod)
  }

  // ---- The guards -------------------------------------------------------------------------------------

  /** The library whose Ref thread t settles. */
  function Settled(s: State, t: Thread): M.ModuleId
    requires Enabled(s, SettleModule(t))
  {
    s.c.refs[s.apps[TaskOf(s, t).a].mref].mod
  }

  /** Thread t is about to settle the last Ref of this library. */
  predicate LastRef(s: State, t: Thread, m: M.ModuleId)
    requires Enabled(s, SettleModule(t))
  {
    m == Settled(s, t) && s.c.libs[m].refs == 1
  }

  predicate Unloaded(s: State, m: M.ModuleId) {
    m < |s.c.libs| && s.c.libs[m].refs == 0
  }

  predicate TokenOut(s: State, p: P.PoolId) {
    p < |s.p.pools| && s.p.pools[p].sema.holders != {}
  }

  /** The guards of the events that leave a token with a finalized library: the last Ref is settled
      while a token of the library's pools is out; a token is taken of a pool whose library has no
      Refs. */
  ghost predicate Unloads(s: State, e: Event)
    requires Enabled(s, e)
  {
    match e
    case SettleModule(t) => exists p: P.PoolId :: TokenOut(s, p) && LastRef(s, t, s.p.pools[p].mod)
    case Pool(pe) => pe.TakeToken? && Unloaded(s, P.PoolOf(s.p, pe.t).mod)
    case _ => false
  }

  /** A thread that has a token, or closes a session, is about to call the library. */
  predicate TokenCall(pc: P.Pc) {
    pc.Token? && Calls(pc).Some?
  }

  predicate TokenCallOf(s: State, u: P.Thread) {
    TokenCall(P.PcOf(s.p, u)) && P.PcOf(s.p, u).p < |s.p.pools|
  }

  /** The guards of the events that lead a call to a finalized library: the last Ref is settled while a
      thread with a token is about to call the library; a token is taken of a pool whose library has
      no Refs, or a handle of such a pool is closed for the first time. */
  ghost predicate Strays(s: State, e: Event)
    requires Enabled(s, e)
  {
    match e
    case SettleModule(t) => exists u: P.Thread :: TokenCallOf(s, u) && LastRef(s, t, s.p.pools[P.PcOf(s.p, u).p].mod)
    case Pool(pe) =>
      (pe.TakeToken? && Unloaded(s, P.PoolOf(s.p, pe.t).mod)) ||
      (pe.CallCloseHandle? && !s.p.handles[pe.h].closed && Unloaded(s, s.p.pools[s.p.handles[pe.h].pool].mod))
    case _ => false
  }

  // ---- What an event does to libraries ----------------------------------------------------------------

  /** A library is alive exactly while its count is positive. */
  lemma AliveIffCounted(c: M.Contents, m: M.ModuleId)
    requires M.Valid(c) && m < |c.libs|
    ensures Alive(c, m) <==> c.libs[m].refs != 0
  {
    assert M.LibraryOk(c, m);
  }

  lemma SettleKills(s: State, t: Thread, m: M.ModuleId)
    requires Valid(s) && !s.p.wrapped && Enabled(s, SettleModule(t)) && m < |s.c.libs|
    ensures var s' := Apply(s, SettleModule(t));
            m < |s'.c.libs| && (Alive(s'.c, m) <==> Alive(s.c, m) && !LastRef(s, t, m))
  {
    var s' := Apply(s, SettleModule(t));
    ModulesStep(s, SettleModule(t));
    AliveIffCounted(s.c, m);
    AliveIffCounted(s'.c, m);
    SettlingRef(s, SettleModule(t));
    assert M.LibraryOk(s.c, Settled(s, t)) && s.apps[TaskOf(s, t).a].mref in M.Unsettled(s.c.refs, Settled(s, t));
  }

  /** Loading a library, or marking a Ref, revives and kills none. */
  lemma OthersKeepAlive(s: State, e: Event, m: M.ModuleId)
    requires Valid(s) && !s.p.wrapped && Enabled(s, e) && !e.SettleModule? && m < |s.c.libs|
    ensures m < |Apply(s, e).c.libs| && (Alive(Apply(s, e).c, m) <==> Alive(s.c, m))
  {
    ModulesStep(s, e);
    if e.OpenModule? {
      OpenKeepsCount(s.c, e.path, e.loading, m);
      AliveIffCounted(s.c, m);
      AliveIffCounted(Apply(s, e).c, m);
    } else if !e.MarkModule? {
      SameModules(s, e);
    }
  }

  lemma OpenKeepsCount(c: M.Contents, path: M.Path, loading: M.Loading, m: M.ModuleId)
    requires M.Valid(c) && m < |c.libs|
    ensures var c' := M.Open(c, path, loading).0;
            m < |c'.libs| && (c'.libs[m].refs == 0 <==> c.libs[m].refs == 0)
  {
    assert M.LibraryOk(c, m);
  }

  // ---- What an event does to tokens and calls ----------------------------------------------------------

  /** A step of an instance leaves the pools alone, and starts no session call. */
  lemma InstancePools(s: State, e: Event)
    requires Enabled(s, e) && !e.Pool?
    ensures Apply(s, e).p.pools == s.p.pools
    ensures forall t :: TokenCall(P.PcOf(Apply(s, e).p, t)) ==> P.PcOf(Apply(s, e).p, t) == P.PcOf(s.p, t)
  {
    PoolsStep(s, e);
    if InnerEvent(s, e).Some? {
      CallsOnly(s.p, InnerEvent(s, e).value);
    }
  }

  lemma CallsOnly(s: P.State, e: P.Event)
    requires P.Enabled(s, e) && (e.CallLogin? || e.CallDrop? || e.Finish?)
    ensures P.Apply(s, e).pools == s.pools
    ensures forall t :: TokenCall(P.PcOf(P.Apply(s, e), t)) ==> P.PcOf(P.Apply(s, e), t) == P.PcOf(s, t)
  {
  }

  /** No pool comes to have a token out, except perhaps `but`. */
  ghost predicate NoNewToken(before: seq<P.Pool>, after: seq<P.Pool>, but: Option<P.PoolId>) {
    forall p :: 0 <= p < |after| && after[p].sema.holders != {} && but != Some(p) ==>
      p < |before| && before[p].sema.holders != {}
  }

  lemma TokenHolders(s: P.State, e: P.Event)
    requires P.Enabled(s, e) && P.PcOf(s, e.t).Token?
    ensures NoNewToken(s.pools, P.Apply(s, e).pools, if e.TakeToken? then Some(P.PcOf(s, e.t).p) else None)
  {
  }

  lemma SetUpHolders(s: P.State, e: P.Event)
    requires P.Enabled(s, e) && P.PcOf(s, e.t).Work? && PS.ForSetUp(e)
    ensures NoNewToken(s.pools, P.Apply(s, e).pools, None)
  {
  }

  lemma ShutDownHolders(s: P.State, e: P.Event)
    requires P.Enabled(s, e) && P.PcOf(s, e.t).Work? && !PS.ForSetUp(e)
    ensures NoNewToken(s.pools, P.Apply(s, e).pools, None)
  {
    PS.ShutDownKeepsHolders(s, e);
  }

  lemma LoginHolders(s: P.State, e: P.Event)
    requires P.Enabled(s, e) && P.PcOf(s, e.t).Login?
    ensures NoNewToken(s.pools, P.Apply(s, e).pools, None)
  {
  }

  lemma DropHolders(s: P.State, e: P.Event)
    requires P.Enabled(s, e) && P.PcOf(s, e.t).Dec?
    ensures NoNewToken(s.pools, P.Apply(s, e).pools, None)
  {
  }

  lemma IdleHolders(s: P.State, e: P.Event)
    requires P.Enabled(s, e) && (P.PcOf(s, e.t).Idle? || P.PcOf(s, e.t).Returned?)
    ensures NoNewToken(s.pools, P.Apply(s, e).pools, None)
  {
  }

  lemma StepHolders(s: P.State, e: P.Event)
    requires P.Enabled(s, e)
    ensures NoNewToken(s.pools, P.Apply(s, e).pools, if e.TakeToken? then Some(P.PcOf(s, e.t).p) else None)
  {
    match P.PcOf(s, e.t)
    case Token(_, _, _) => TokenHolders(s, e);
    case Work(_, _, _) =>
      if PS.ForSetUp(e) {
        SetUpHolders(s, e);
      } else {
        ShutDownHolders(s, e);
      }
    case Login(_, _, _) => LoginHolders(s, e);
    case Dec(_, _, _) => DropHolders(s, e);
    case _ => IdleHolders(s, e);
  }

  lemma TakenHolders(s: P.State, e: P.Event)
    requires P.Enabled(s, e) && e.TakeToken?
    ensures var p, s' := P.PcOf(s, e.t).p, P.Apply(s, e);
            p < |s.pools| == |s'.pools| && s'.pools[p].sema.holders != {} && s'.pools[p].mod == s.pools[p].mod &&
            P.PcOf(s', e.t) == P.Token(p, P.PcOf(s, e.t).id, P.Got)
  {
    assert P.PcOf(s, e.t).id in P.Apply(s, e).pools[P.PcOf(s, e.t).p].sema.holders;
  }

  // ---- The exact guard for tokens ------------------------------------------------------------------------

  lemma SettleTokens(s: State, t: Thread)
    requires Valid(s) && !s.p.wrapped && TokensReach(s) && Enabled(s, SettleModule(t))
    ensures TokensReach(Apply(s, SettleModule(t))) <==> !Unloads(s, SettleModule(t))
  {
    var s' := Apply(s, SettleModule(t));
    InstancePools(s, SettleModule(t));
    forall p: P.PoolId | TokenOut(s, p)
      ensures s.p.pools[p].mod < |s.c.libs|
      ensures Alive(s'.c, s.p.pools[p].mod) <==> !LastRef(s, t, s.p.pools[p].mod)
    {
      assert PoolOk(s, p);
      SettleKills(s, t, s.p.pools[p].mod);
    }
  }

  lemma InstanceTokens(s: State, e: Event)
    requires Valid(s) && !s.p.wrapped && TokensReach(s) && Enabled(s, e) && !e.Pool? && !e.SettleModule?
    ensures TokensReach(Apply(s, e))
  {
    InstancePools(s, e);
    forall p: P.PoolId | TokenOut(s, p) ensures Alive(Apply(s, e).c, s.p.pools[p].mod) {
      assert PoolOk(s, p);
      OthersKeepAlive(s, e, s.p.pools[p].mod);
    }
  }

  lemma PoolTokens(s: State, e: Event)
    requires Valid(s) && !s.p.wrapped && TokensReach(s) && Enabled(s, e) && e.Pool? && !Apply(s, e).p.wrapped
    ensures TokensReach(Apply(s, e)) <==> !Unloads(s, e)
  {
    var s' := Apply(s, e);
    SF.StepEvolves(s.p, e.e);
    StepHolders(s.p, e.e);
    if e.e.TakeToken? {
      var q := P.PcOf(s.p, e.e.t).p;
      TakenHolders(s.p, e.e);
      assert PoolOk(s, q);
      AliveIffCounted(s.c, s.p.pools[q].mod);
    }
  }

  /** From a state in which every token reaches its library, an event leads to one in which some token
      does not if and only if it meets a guard. */
  lemma UnloadsExactly(s: State, e: Event)
    requires Valid(s) && !s.p.wrapped && TokensReach(s) && Enabled(s, e) && !Apply(s, e).p.wrapped
    ensures TokensReach(Apply(s, e)) <==> !Unloads(s, e)
  {
    if e.Pool? {
      PoolTokens(s, e);
    } else if e.SettleModule? {
      SettleTokens(s, e.t);
    } else {
      InstanceTokens(s, e);
    }
  }

  ghost predicate TokensAlwaysReach(s: State, es: seq<Event>)
    decreases |es|
  {
    TokensReach(s) && (es != [] && Enabled(s, es[0]) ==> TokensAlwaysReach(Apply(s, es[0]), es[1..]))
  }

  ghost predicate NeverUnloads(s: State, es: seq<Event>)
    decreases |es|
  {
    es != [] && Enabled(s, es[0]) ==> !Unloads(s, es[0]) && NeverUnloads(Apply(s, es[0]), es[1..])
  }

  lemma {:induction false} ExecUnloadsExactly(s: State, es: seq<Event>)
    requires Valid(s) && TokensReach(s) && Exec(s, es).Some? && !Exec(s, es).value.p.wrapped
    ensures TokensAlwaysReach(s, es) <==> NeverUnloads(s, es)
    decreases |es|
  {
    if es == [] {
    } else {
      RangeKept(s, es);
      UnloadsExactly(s, es[0]);
      StepValid(s, es[0]);
      if TokensReach(Apply(s, es[0])) {
        ExecUnloadsExactly(Apply(s, es[0]), es[1..]);
      }
    }
  }

  /** A run that ends in range was in range before. */
  lemma RangeKept(s: State, es: seq<Event>)
    requires Valid(s) && es != [] && Exec(s, es).Some? && !Exec(s, es).value.p.wrapped
    ensures !s.p.wrapped && Enabled(s, es[0]) && !Apply(s, es[0]).p.wrapped
  {
    if s.p.wrapped {
      WrappedStays(s, es);
    }
    StepValid(s, es[0]);
    if Apply(s, es[0]).p.wrapped {
      WrappedStays(Apply(s, es[0]), es[1..]);
    }
  }

  /** Over a run, every token that is out always reaches a loaded library if and only if no guard is ever
      met. */
  lemma TokensReachIffNeverUnloaded(es: seq<Event>)
    requires Reaches(es)
    ensures TokensAlwaysReach(EMPTY, es) <==> NeverUnloads(EMPTY, es)
  {
    ExecUnloadsExactly(EMPTY, es);
  }

  // ---- The exact guard for calls -------------------------------------------------------------------------

  lemma WorkCallsReach(s: State, t: P.Thread)
    requires M.Valid(s.c) && PI.Registry(s.p) && Glue(s) && t in s.p.pcs && s.p.pcs[t].Work? && Calls(s.p.pcs[t]).Some?
    ensures CallReaches(s, s.p.pcs[t])
  {
    WorkerPoolCached(s.p, t);
    CachedPoolModuleAlive(s, s.p.pcs[t].p);
  }

  /** Only the calls of threads with a token can go astray. */
  ghost predicate TokenCallsReach(s: State) {
    forall t :: TokenCall(P.PcOf(s.p, t)) ==> CallReaches(s, P.PcOf(s.p, t))
  }

  lemma TokenCallsSuffice(s: State)
    requires Valid(s) && !s.p.wrapped
    ensures CallsReach(s) <==> TokenCallsReach(s)
  {
    forall t | t in s.p.pcs && s.p.pcs[t].Work? && Calls(s.p.pcs[t]).Some? ensures CallReaches(s, s.p.pcs[t]) {
      WorkCallsReach(s, t);
    }
    assert forall t :: t !in s.p.pcs ==> !TokenCall(P.PcOf(s.p, t));
  }

  lemma SettleCalls(s: State, t: Thread)
    requires Valid(s) && !s.p.wrapped && TokenCallsReach(s) && Enabled(s, SettleModule(t))
    ensures TokenCallsReach(Apply(s, SettleModule(t))) <==> !Strays(s, SettleModule(t))
  {
    var s' := Apply(s, SettleModule(t));
    InstancePools(s, SettleModule(t));
    PoolsStep(s, SettleModule(t));
    forall u | TokenCall(P.PcOf(s.p, u))
      ensures TokenCallOf(s, u) && s.p.pools[P.PcOf(s.p, u).p].mod < |s.c.libs|
      ensures CallReaches(s', P.PcOf(s.p, u)) <==> !LastRef(s, t, s.p.pools[P.PcOf(s.p, u).p].mod)
    {
      assert CallReaches(s, P.PcOf(s.p, u));
      assert PoolOk(s, P.PcOf(s.p, u).p);
      SettleKills(s, t, s.p.pools[P.PcOf(s.p, u).p].mod);
    }
  }

  lemma InstanceCalls(s: State, e: Event)
    requires Valid(s) && !s.p.wrapped && TokenCallsReach(s) && Enabled(s, e) && !e.Pool? && !e.SettleModule?
    ensures TokenCallsReach(Apply(s, e))
  {
    var s' := Apply(s, e);
    InstancePools(s, e);
    forall u | TokenCall(P.PcOf(s'.p, u)) ensures CallReaches(s', P.PcOf(s'.p, u)) {
      assert CallReaches(s, P.PcOf(s.p, u));
      assert PoolOk(s, P.PcOf(s.p, u).p);
      OthersKeepAlive(s, e, s.p.pools[P.PcOf(s.p, u).p].mod);
    }
  }

  /** A thread gets to a session call by taking a token or closing a handle. */
  lemma OwnCall(s: P.State, e: P.Event)
    requires P.Enabled(s, e)
    ensures var pc := P.PcOf(P.Apply(s, e), e.t);
            TokenCall(pc) <==> e.TakeToken? || (e.CallCloseHandle? && !s.handles[e.h].closed)
    ensures e.TakeToken? ==> P.PcOf(P.Apply(s, e), e.t).p == P.PcOf(s, e.t).p
    ensures e.CallCloseHandle? && !s.handles[e.h].closed ==> P.PcOf(P.Apply(s, e), e.t).p == s.handles[e.h].pool
  {
    if PS.SessionEvent(s, e) {
      OwnCallSession(s, e);
    } else {
      OwnCallElse(s, e);
    }
  }

  lemma OwnCallSession(s: P.State, e: P.Event)
    requires P.Enabled(s, e) && PS.SessionEvent(s, e)
    ensures var pc := P.PcOf(P.Apply(s, e), e.t);
            TokenCall(pc) <==> e.TakeToken? || (e.CallCloseHandle? && !s.handles[e.h].closed)
    ensures e.TakeToken? ==> P.PcOf(P.Apply(s, e), e.t).p == P.PcOf(s, e.t).p
    ensures e.CallCloseHandle? && !s.handles[e.h].closed ==> P.PcOf(P.Apply(s, e), e.t).p == s.handles[e.h].pool
  {
  }

  lemma OwnCallElse(s: P.State, e: P.Event)
    requires P.Enabled(s, e) && !PS.SessionEvent(s, e)
    ensures !TokenCall(P.PcOf(P.Apply(s, e), e.t))
  {
  }

  lemma PoolCalls(s: State, e: Event)
    requires Valid(s) && !s.p.wrapped && TokenCallsReach(s) && Enabled(s, e) && e.Pool? && !Apply(s, e).p.wrapped
    ensures TokenCallsReach(Apply(s, e)) <==> !Strays(s, e)
  {
    var s', t := Apply(s, e), e.e.t;
    SF.StepEvolves(s.p, e.e);
    OwnCall(s.p, e.e);
    forall u | u != t && TokenCall(P.PcOf(s'.p, u)) ensures CallReaches(s', P.PcOf(s'.p, u)) {
      PS.OwnThread(s.p, e.e, u);
      assert CallReaches(s, P.PcOf(s.p, u));
    }
    if TokenCall(P.PcOf(s'.p, t)) {
      var p := P.PcOf(s'.p, t).p;
      assert PoolOk(s, p);
      AliveIffCounted(s.c, s.p.pools[p].mod);
      assert CallReaches(s', P.PcOf(s'.p, t)) <==> !Unloaded(s, s.p.pools[p].mod);
    }
  }

  lemma TokenCallsStray(s: State, e: Event)
    requires Valid(s) && !s.p.wrapped && TokenCallsReach(s) && Enabled(s, e) && !Apply(s, e).p.wrapped
    ensures TokenCallsReach(Apply(s, e)) <==> !Strays(s, e)
  {
    if e.Pool? {
      PoolCalls(s, e);
    } else if e.SettleModule? {
      SettleCalls(s, e.t);
    } else {
      InstanceCalls(s, e);
    }
  }

  /** From a state in which every call reaches its library, an event leads to one in which some call does
      not if and only if it meets a guard. */
  lemma StraysExactly(s: State, e: Event)
    requires Valid(s) && !s.p.wrapped && CallsReach(s) && Enabled(s, e) && !Apply(s, e).p.wrapped
    ensures CallsReach(Apply(s, e)) <==> !Strays(s, e)
  {
    StepValid(s, e);
    TokenCallsSuffice(s);
    TokenCallsStray(s, e);
    TokenCallsSuffice(Apply(s, e));
  }

  ghost predicate CallsAlwaysReach(s: State, es: seq<Event>)
    decreases |es|
  {
    CallsReach(s) && (es != [] && Enabled(s, es[0]) ==> CallsAlwaysReach(Apply(s, es[0]), es[1..]))
  }

  ghost predicate NeverStrays(s: State, es: seq<Event>)
    decreases |es|
  {
    es != [] && Enabled(s, es[0]) ==> !Strays(s, es[0]) && NeverStrays(Apply(s, es[0]), es[1..])
  }

  lemma {:induction false} ExecStraysExactly(s: State, es: seq<Event>)
    requires Valid(s) && CallsReach(s) && Exec(s, es).Some? && !Exec(s, es).value.p.wrapped
    ensures CallsAlwaysReach(s, es) <==> NeverStrays(s, es)
    decreases |es|
  {
    if es == [] {
    } else {
      RangeKept(s, es);
      StraysExactly(s, es[0]);
      StepValid(s, es[0]);
      if CallsReach(Apply(s, es[0])) {
        ExecStraysExactly(Apply(s, es[0]), es[1..]);
      }
    }
  }

  /** Over a run, every call of Login, Logout or a session always reaches a loaded library if and only if
      no guard is ever met. */
  lemma CallsReachIffNeverStrayed(es: seq<Event>)
    requires Reaches(es)
    ensures CallsAlwaysReach(EMPTY, es) <==> NeverStrays(EMPTY, es)
  {
    ExecStraysExactly(EMPTY, es);
  }

  // ---- Tokens and calls -----------------------------------------------------------------------------------

  /** Where every token reaches its library, so does every call. */
  lemma TokensSuffice(es: seq<Event>)
    requires Reaches(es) && TokensReach(After(es))
    ensures CallsReach(After(es))
  {
    ExecValid(EMPTY, es);
    TokenCallsSuffice(After(es));
    HoldersReach(After(es));
  }

  lemma HoldersReach(s: State)
    requires PI.Tokens(s.p) && TokensReach(s)
    ensures TokenCallsReach(s)
  {
    forall t | TokenCall(P.PcOf(s.p, t)) ensures CallReaches(s, P.PcOf(s.p, t)) {
      assert PI.TokenOk(s.p.pools, s.p.slots, t, s.p.pcs[t]);
    }
  }

  /** A call that reaches a finalized library is one on a pool that was removed undrained, whose last Drop
      was a wrapper's. */
  lemma StrayCallWasWrappers(es: seq<Event>, t: P.Thread)
    requires Reaches(es) && t in After(es).p.pcs && Calls(After(es).p.pcs[t]).Some?
    requires !CallReaches(After(es), After(es).p.pcs[t])
    ensures var s := After(es); var p := Calls(s.p.pcs[t]).value;
            p < |s.p.pools| && DrainFailed(s.p.pools[p]) && ShutByWrapper(s, p)
  {
    ReachedValid(es);
    ReachedShut(es);
    CallerReachesModule(After(es), t);
  }
}
