/** The code of pool.go and handle.go, section by section, on shared state that other threads change
    in between. Every execution of Login, Drop, Get and Handle.Close, whatever the other threads do,
    is a run of PoolProtocol; so its invariant holds throughout and PoolSafety applies.

    `others` is what the other threads do: each element is what happens between two sections of the
    calling thread, or while it waits. When there is nothing left, the context ends; a call ends
    because the interference does. Select statements are nondeterministic, as in Go; a `patient`
    context does not end while something else can be received. */
module PoolCode {
  import opened Common
  import opened PoolProtocol
  import opened PoolRuns
  import PI = PoolInvariant
  import PS = PoolSteps
  import SF = PoolSafety
  import BC = BoundedCounter

  type Others = seq<seq<Event>>

  ghost predicate Reached(s: State) {
    Leads(Init(), s)
  }

  ghost predicate Good(s: State) {
    Reached(s) && !s.wrapped
  }

  lemma GoodValid(s: State)
    requires Good(s)
    ensures PI.Registry(s) && PI.Tokens(s)
  {
    var es :| Exec(Init(), es) == Some(s);
    PI.InitValid();
    PS.ExecValid(Init(), es);
  }

  lemma ReachedStep(s: State, e: Event)
    requires Good(s) && Enabled(s, e)
    ensures Reached(Apply(s, e))
  {
    OneStep(s, e);
    Continues(Init(), s, Apply(s, e));
  }

  lemma Step(s0: State, t: Thread, s: State, e: Event)
    requires Goes(s0, t, s) && Good(s) && Enabled(s, e) && Within(t, e)
    ensures Goes(s0, t, Apply(s, e)) && Reached(Apply(s, e))
  {
    OneGo(s, t, e);
    GoesOn(s0, t, s, Apply(s, e));
    ReachedStep(s, e);
  }

  /** A step of t. */
  lemma Moves(s: State, e: Event)
    requires Good(s) && Enabled(s, e)
    ensures Does(s, e.t, [e], Apply(s, e)) && Reached(Apply(s, e))
  {
    DoesOne(s, e.t, e);
    ReachedStep(s, e);
  }

  lemma CallerKnown(s: State, t: Thread)
    requires Good(s) && (PcOf(s, t).Login? || PcOf(s, t).Dec?)
    ensures !s.panicked && (PcOf(s, t).Dec? || !PcOf(s, t).at.Lookup? ==> Known(s, t))
  {
    GoodValid(s);
    assert PI.CallerOk(s.pools, s.prefs, s.pcs[t]);
  }

  lemma WorkerKnown(s: State, t: Thread)
    requires Good(s) && PcOf(s, t).Work?
    ensures !s.panicked && Known(s, t) && PI.StageOk(PoolOf(s, t), Some(PcOf(s, t).work))
  {
    GoodValid(s);
    var p := PcOf(s, t).p;
    assert s.pools[p].worker == Some(t) && PI.StageOk(s.pools[p], PI.WorkOf(s.pools[p], s.pcs));
  }

  lemma CachedNotDead(s: State, key: Key)
    requires Good(s) && key in s.cache
    ensures s.cache[key] < |s.pools| && !s.pools[s.cache[key]].dead
  {
    GoodValid(s);
    PS.StagesDead(s, s.cache[key]);
  }

  lemma LoadMoves(s: State, t: Thread)
    requires Enabled(s, LoadRefs(t))
    ensures var s' := Apply(s, LoadRefs(t)); var pc, pc' := PcOf(s, t), PcOf(s', t);
            s' == s.(pcs := s.pcs[t := pc']) &&
            (pc.Login? ==> pc' == Login(pc.c, pc.seen, if PoolOf(s, t).refs == 0 then AwaitDead(pc.at.p)
                                                       else CasInc(pc.at.p, PoolOf(s, t).refs)))
  {
  }

  lemma SwapMoves(s: State, t: Thread)
    requires Good(s) && Enabled(s, SwapRefs(t)) && PcOf(s, t).Login?
    ensures var s' := Apply(s, SwapRefs(t)); var Login(c, seen, at) := PcOf(s, t);
            if PoolOf(s, t).refs == at.v then s'.wrapped || Granted(s', t, c)
            else s' == s.(pcs := s.pcs[t := Login(c, seen, LoadInc(at.p))])
  {
    GoodValid(s);
    assert PI.CallerOk(s.pools, s.prefs, s.pcs[t]);
  }

  /** One more reference can be counted. */
  predicate Countable(s: State, t: Thread) {
    Known(s, t) && 0 < PoolOf(s, t).refs < UINT32_MOD - 1
  }

  /** The pool the caller waits for is live, for its PIN. */
  predicate Welcome(s: State, t: Thread) {
    var pc := PcOf(s, t);
    pc.Login? && pc.at.AwaitLive? && Known(s, t) && PoolOf(s, t).live && !PoolOf(s, t).dead && PoolOf(s, t).pin == pc.c.pin
  }

  /** What the caller waits for has happened. */
  predicate Awaited(s: State, t: Thread) {
    var pc := PcOf(s, t);
    pc.Login? && !pc.at.Lookup? && Known(s, t) && (PoolOf(s, t).dead || (pc.at.AwaitLive? && PoolOf(s, t).live))
  }

  lemma AwaitsOwnKey(s: State, t: Thread)
    requires Good(s) && PcOf(s, t).Login? && !PcOf(s, t).at.Lookup?
    ensures Known(s, t) && PoolOf(s, t).key == PcOf(s, t).c.key
  {
    GoodValid(s);
    assert PI.CallerOk(s.pools, s.prefs, s.pcs[t]);
  }

  /** What Login promises of the reference it returns. */
  ghost predicate Granted(s: State, t: Thread, c: Call) {
    var pc := PcOf(s, t);
    pc.Returned? && pc.result.LoggedIn? && pc.result.r < |s.prefs| &&
    var ref := s.prefs[pc.result.r];
    ref == Ref(ref.pool, c.app, c.pin, t, false) && ref.pool < |s.pools| &&
    s.pools[ref.pool].key == c.key && s.pools[ref.pool].pin == c.pin && s.pools[ref.pool].live
  }

  /** Thread t sets up the pool it inserted for call c. */
  ghost predicate SettingUp(s: State, t: Thread, c: Call) {
    var pc := PcOf(s, t);
    pc.Work? && pc.app == c.app && pc.p < |s.pools| && s.pools[pc.p].key == c.key && s.pools[pc.p].pin == c.pin
  }

  /** The key has a live pool with the caller's PIN. */
  predicate CanShare(s: State, c: Call) {
    c.key in s.cache && s.cache[c.key] < |s.pools| &&
    var pool := s.pools[s.cache[c.key]];
    pool.live && pool.pin == c.pin && 0 < pool.refs < UINT32_MOD - 1
  }

  /** The token bounds its sessions, to fewer than the two a pool needs. */
  predicate TooFew(info: TokenInfo) {
    0 < info.maxSessionCount < 0xffff_ffff_ffff_ffff && info.maxRwSessionCount < 2
  }

  /** The key has no pool, its token allows one, and nobody is logged in to it. */
  predicate CanInsert(s: State, c: Call) {
    c.key !in s.cache && !TooFew(c.info) && c.key !in s.loggedIn
  }

  /** The pool is live, for another PIN. */
  predicate WrongPin(pools: seq<Pool>, p: PoolId, c: Call) {
    p < |pools| && pools[p].key == c.key && pools[p].live && pools[p].pin != c.pin
  }

  /** Thread t came to set up a pool for its call and buried it. */
  ghost predicate FailedSetUp(s: State, t: Thread, c: Call, s': State) {
    exists mid :: Goes(s, t, mid) && SettingUp(mid, t, c) && Buried(s', PcOf(mid, t).p)
  }

  /** What a Login that did not give up failed for. */
  ghost predicate Refused(s: State, t: Thread, c: Call, s': State) {
    TooFew(c.info) || (exists p :: WrongPin(s'.pools, p, c)) || FailedSetUp(s, t, c, s')
  }

  lemma RefusedLater(s: State, t: Thread, c: Call, s': State, s'': State)
    requires Goes(s, t, s')
    ensures Refused(s', t, c, s'') ==> Refused(s, t, c, s'')
  {
    if FailedSetUp(s', t, c, s'') {
      var mid :| Goes(s', t, mid) && SettingUp(mid, t, c) && Buried(s'', PcOf(mid, t).p);
      GoesOn(s, t, s', mid);
    }
  }

  /** The steps that take a pool out of the cache. */
  function Retired(t: Thread): seq<Event> {
    [Remove(t)] + [Bury(t)]
  }

  predicate ShutAt(pools: seq<Pool>, p: PoolId) {
    p < |pools| && pools[p].sema.closed
  }

  predicate DeadAt(pools: seq<Pool>, p: PoolId) {
    p < |pools| && pools[p].dead
  }

  predicate Buried(s: State, p: PoolId) {
    p < |s.pools| && s.pools[p].removed && s.pools[p].dead
  }

  /** C_Login succeeds exactly if it does not fail by itself and nobody is logged in to the token when it
      is called. */
  ghost predicate LoginDecided(s: State, t: Thread, before: seq<Event>, key: Key, logsIn: bool, ok: bool) {
    exists mid :: Does(s, t, before, mid) && (ok <==> logsIn && key !in mid.loggedIn)
  }

  /** The steps of Login from the call of C_Login on. */
  function LoginSteps(t: Thread, ok: bool, closes: bool): seq<Event> {
    [LoginMain(t, ok)] + if ok then [] else [CloseMain(t, closes)] + Retired(t)
  }

  /** The steps of the shutdown. */
  function ShutdownSteps(t: Thread, drained: bool, logsOut: bool, closes: bool): seq<Event> {
    DrainSteps(t, drained) + ([Logout(t, logsOut)] + ([CloseAll(t, closes)] + Retired(t)))
  }

  function DrainSteps(t: Thread, drained: bool): seq<Event> {
    [ShutSemaphore(t)] + [if drained then Drained(t) else GiveUp(t)]
  }

  lemma DecidedAfter(s: State, t: Thread, e: Event, s': State, key: Key, logsIn: bool, ok: bool)
    requires Does(s, t, [e], s') && LoginDecided(s', t, [], key, logsIn, ok)
    ensures LoginDecided(s, t, [e], key, logsIn, ok)
  {
    var mid :| Does(s', t, [], mid) && (ok <==> logsIn && key !in mid.loggedIn);
    Aside(s, t, [e], s', [], mid);
    assert [e] + [] == [e];
  }

  lemma SetUpGoes(s: State, t: Thread, opens: bool, ok: bool, closes: bool, s': State)
    requires Does(s, t, [OpenMain(t, opens)] + if opens then LoginSteps(t, ok, closes) else Retired(t), s')
    ensures Goes(s, t, s')
  {
    DoesGoes(s, t, [OpenMain(t, opens)] + if opens then LoginSteps(t, ok, closes) else Retired(t), s');
  }

  lemma ShutdownGoes(s: State, t: Thread, drained: bool, logsOut: bool, closes: bool, s': State)
    requires Does(s, t, ShutdownSteps(t, drained, logsOut, closes), s')
    ensures Goes(s, t, s')
  {
    DoesGoes(s, t, ShutdownSteps(t, drained, logsOut, closes), s');
  }

  lemma FindMoves(s: State, t: Thread)
    requires Good(s) && Enabled(s, FindPool(t))
    ensures var s' := Apply(s, FindPool(t)); var Login(c, seen, _) := PcOf(s, t); var pc' := PcOf(s', t);
            !s'.wrapped && t in s'.pcs &&
            if c.key in s.cache then
              pc' == Login(c, seen, AwaitLive(s.cache[c.key])) && s'.pools == s.pools &&
              s.cache[c.key] < |s.pools| && !s.pools[s.cache[c.key]].dead
            else if TooFew(c.info) then pc' == Returned(LoginFailed)
            else SettingUp(s', t, c) && pc'.work.Opening? && s'.loggedIn == s.loggedIn
  {
    if PcOf(s, t).c.key in s.cache {
      CachedNotDead(s, PcOf(s, t).c.key);
    }
  }

  lemma OpenMoves(s: State, t: Thread, ok: bool)
    requires Enabled(s, OpenMain(t, ok))
    ensures var s' := Apply(s, OpenMain(t, ok)); var pc, pc' := PcOf(s, t), PcOf(s', t);
            s'.wrapped == s.wrapped && t in s'.pcs && pc'.Work? && pc'.app == pc.app && pc'.p == pc.p &&
            s'.loggedIn == s.loggedIn &&
            (if ok then pc'.work.LoggingIn? else pc'.work.RollingBack?) &&
            |s'.pools| == |s.pools| && s'.pools[pc.p].key == s.pools[pc.p].key && s'.pools[pc.p].pin == s.pools[pc.p].pin
  {
  }

  lemma LoginMoves(s: State, t: Thread, c: Call, ok: bool)
    requires Enabled(s, LoginMain(t, ok)) && SettingUp(s, t, c)
    ensures var s' := Apply(s, LoginMain(t, ok)); var pc' := PcOf(s', t);
            s'.wrapped == s.wrapped && t in s'.pcs &&
            if ok then Granted(s', t, c) else pc'.Work? && pc'.work.Unwinding? && pc'.p == PcOf(s, t).p
  {
  }

  lemma DecMoves(s: State, t: Thread)
    requires Good(s) && Enabled(s, LoadRefs(t)) && PcOf(s, t).Dec?
    ensures var s' := Apply(s, LoadRefs(t)); var Dec(app, p, _) := PcOf(s, t);
            s' == s.(pcs := s.pcs[t := PcOf(s', t)]) &&
            PcOf(s', t) == if s.pools[p].refs == 0 then Returned(DropDone(true)) else Dec(app, p, CasDec(s.pools[p].refs))
  {
  }

  lemma SwapDecMoves(s: State, t: Thread)
    requires Enabled(s, SwapRefs(t)) && PcOf(s, t).Dec? && Good(s)
    ensures var s' := Apply(s, SwapRefs(t)); var Dec(app, p, dec) := PcOf(s, t);
            s'.wrapped == s.wrapped && t in s'.pcs &&
            if s.pools[p].refs == dec.v then
              |s'.pools| == |s.pools| && dec.v > 0 && s'.pools[p].refs == dec.v - 1 &&
              PcOf(s', t) == if dec.v == 1 then Work(app, p, Shutting) else Returned(DropDone(true))
            else PcOf(s', t) == Dec(app, p, LoadDec)
  {
    GoodValid(s);
    assert PI.CallerOk(s.pools, s.prefs, s.pcs[t]);
  }

  /** decRefs ends with the step from mid to s'. */
  ghost predicate CountsAt(s: State, t: Thread, mid: State, s': State) {
    Goes(s, t, mid) && PcOf(mid, t).Dec? && Known(mid, t) && |s'.pools| == |mid.pools| &&
    var p := PcOf(mid, t).p;
    var before, after := mid.pools[p].refs, s'.pools[p].refs;
    if before == 0 then Takes(mid, LoadRefs(t), s') && after == 0 && PcOf(s', t) == Returned(DropDone(true))
    else
      && Takes(mid, SwapRefs(t), s')
      && after == before - 1
      && PcOf(s', t) == if after == 0 then Work(PcOf(mid, t).app, p, Shutting) else Returned(DropDone(true))
  }

  ghost predicate Takes(s: State, e: Event, s': State) {
    Enabled(s, e) && s' == Apply(s, e)
  }

  ghost predicate Counts(s: State, t: Thread, s': State) {
    exists mid :: CountsAt(s, t, mid, s')
  }

  /** The shutdown, and the result of the Drop that performs it. */
  ghost predicate ShutDown(s: State, t: Thread, logsOut: bool, closes: bool, s': State) {
    exists drained :: Does(s, t, ShutdownSteps(t, drained, logsOut, closes), s') &&
      PcOf(s', t) == Returned(DropDone(drained && logsOut && closes)) && PcOf(s, t).Work? && Buried(s', PcOf(s, t).p)
  }

  /** Drop once the reference is marked: it takes one reference off and returns, or it took the last one off
      and shuts the pool down. */
  ghost predicate GivenBack(s: State, t: Thread, logsOut: bool, closes: bool, s': State) {
    exists mid :: Counts(s, t, mid) && if PcOf(mid, t).Work? then ShutDown(mid, t, logsOut, closes, s') else s' == mid
  }

  lemma CountsLater(s: State, t: Thread, s': State, s'': State)
    requires Goes(s, t, s')
    ensures Counts(s', t, s'') ==> Counts(s, t, s'')
  {
    if Counts(s', t, s'') {
      var mid :| CountsAt(s', t, mid, s'');
      GoesOn(s, t, s', mid);
      assert CountsAt(s, t, mid, s'');
    }
  }

  lemma WorkMoves(s: State, e: Event)
    requires Enabled(s, e) && PcOf(s, e.t).Work?
    requires e.ShutSemaphore? || e.Drained? || e.GiveUp? || e.Logout? || e.CloseAll?
    ensures var s' := Apply(s, e); var Work(app, p, work) := PcOf(s, e.t);
            s'.wrapped == s.wrapped && p < |s'.pools| && PcOf(s', e.t) == Work(app, p,
              match e
              case ShutSemaphore(_) => Draining
              case Drained(_) => LoggingOut(true)
              case GiveUp(_) => LoggingOut(false)
              case Logout(_, ok) => ClosingAll(work.clean && ok)
              case CloseAll(_, ok) => Removing(work.clean && ok)
              case _ => work)
  {
  }

  /** A token can be taken. */
  predicate HasRoom(sema: BC.Counter) {
    |sema.holders| < sema.limit && !sema.drained
  }

  predicate Admits(s: State, t: Thread) {
    Known(s, t) && HasRoom(PoolOf(s, t).sema) && !PoolOf(s, t).sema.closed
  }

  /** Acquire is not refused at once: the semaphore of the pool is open. */
  predicate Accepts(s: State, r: RefId) {
    r < |s.prefs| && s.prefs[r].pool < |s.pools| && !s.pools[s.prefs[r].pool].sema.closed
  }

  /** A new number is nobody's, so only a closed semaphore refuses its call. */
  lemma AcceptsExactly(s: State, r: RefId)
    requires Good(s) && r < |s.prefs| && s.prefs[r].pool < |s.pools|
    ensures Accepts(s, r) <==> BC.Can(s.pools[s.prefs[r].pool].sema, BC.Begin(|s.slots|))
  {
    GoodValid(s);
    assert PI.SemaOk(s.slots, s.pools[s.prefs[r].pool], s.prefs[r].pool);
  }

  lemma GetMoves(s: State, t: Thread, r: RefId)
    requires Good(s) && Enabled(s, CallGet(t, r))
    ensures var s' := Apply(s, CallGet(t, r)); var pc := PcOf(s', t);
            s'.wrapped == s.wrapped && t in s'.pcs &&
            if Accepts(s, r) then
              pc.Token? && pc.token.Getting? && pc.p == s.prefs[r].pool && pc.p < |s'.pools| &&
              (HasRoom(s.pools[pc.p].sema) ==> Admits(s', t))
            else s' == Goto(s, t, Returned(SessionDone))
  {
    AcceptsExactly(s, r);
  }

  function OpenSteps(t: Thread, opens: bool): seq<Event> {
    [OpenTemp(t, opens)] + if opens then [] else [ReleaseToken(t)]
  }

  /** The steps of Get from its wait for a token on. */
  function GetSteps(t: Thread, taken: bool, opens: bool): seq<Event> {
    if taken then [TakeToken(t)] + OpenSteps(t, opens) else [GiveUp(t)]
  }

  /** An open handle of pool p, with its session open and its token counted. */
  predicate Usable(s: State, h: HandleId, p: PoolId) {
    h < |s.handles| && !s.handles[h].closed && s.handles[h].id in s.open &&
    s.handles[h].pool == p && p < |s.pools| && s.handles[h].id in s.pools[p].sema.holders
  }

  lemma TokenKnown(s: State, t: Thread)
    requires Good(s) && PcOf(s, t).Token?
    ensures !s.panicked && Known(s, t) && PcOf(s, t).id < |s.slots|
    ensures var pc := PcOf(s, t);
            if pc.token.Getting? then pc.id in PoolOf(s, t).sema.calls else pc.id in PoolOf(s, t).sema.holders
  {
    GoodValid(s);
    assert PI.TokenOk(s.pools, s.slots, t, s.pcs[t]);
  }

  lemma TokenMoves(s: State, e: Event)
    requires Enabled(s, e)
    requires e.CallGet? || e.CallCloseHandle? || (PcOf(s, e.t).Token? && (e.TakeToken? || e.GiveUp? || e.OpenTemp? || e.CloseTemp? || e.ReleaseToken?))
    ensures var s' := Apply(s, e); var pc, pc' := PcOf(s, e.t), PcOf(s', e.t);
            s'.wrapped == s.wrapped && e.t in s'.pcs &&
            match e
            case CallGet(_, _) => pc' == Returned(SessionDone) || (pc'.Token? && pc'.token.Getting?)
            case TakeToken(_) => pc' == Token(pc.p, pc.id, Got)
            case OpenTemp(_, ok) =>
              if ok then pc' == Returned(SessionDone) && s'.handles == s.handles + [Handle(pc.p, pc.id, false)] &&
                         pc.id in s'.open && s'.pools == s.pools
              else pc' == Token(pc.p, pc.id, Releasing)
            case CloseTemp(_, _) => pc' == Token(pc.p, pc.id, Releasing)
            case CallCloseHandle(_, _) => true
            case _ => pc' == Returned(SessionDone)
  {
  }

  lemma CloseMoves(s: State, t: Thread, ok: bool)
    requires Enabled(s, CloseMain(t, ok))
    ensures var s' := Apply(s, CloseMain(t, ok)); var pc' := PcOf(s', t);
            s'.wrapped == s.wrapped && pc'.Work? && pc'.work.RollingBack? && pc'.p == PcOf(s, t).p
  {
  }

  lemma OthersMove(s0: State, t: Thread, s: State, e: Event)
    requires Does(s0, t, [], s) && Good(s) && Enabled(s, e) && e.t != t
    ensures Does(s0, t, [], Apply(s, e)) && Reached(Apply(s, e)) && PcOf(Apply(s, e), t) == PcOf(s, t)
    ensures !Apply(s, e).wrapped ==> PI.Evolves(s.pools, Apply(s, e).pools)
  {
    Moves(s, e);
    DoesOne(s, t, e);
    Aside(s0, t, [], s, [], Apply(s, e));
    PS.OwnThread(s, e, t);
    GoodValid(s);
    SF.StepEvolves(s, e);
  }

  class Pools {
    var pools: seq<Pool>
    var cache: map<Key, PoolId>
    var prefs: seq<Ref>
    var slots: seq<Slot>
    var handles: seq<Handle>
    var open: set<nat>
    var loggedIn: set<Key>
    var pcs: map<Thread, Pc>   // the statement each thread has reached
    var panicked: bool
    var wrapped: bool

    function Now(): State
      reads this
    {
      State(pools, cache, prefs, slots, handles, open, loggedIn, pcs, panicked, wrapped)
    }

    constructor ()
      ensures Now() == Init() && Good(Now())
    {
      Stays(Init());
      pools, cache, prefs, slots, handles := [], map[], [], [], [];
      open, loggedIn, pcs, panicked, wrapped := {}, {}, map[], false, false;
    }

    method Become(s: State)
      modifies this
      ensures Now() == s
    {
      pools, cache, prefs, slots, handles := s.pools, s.cache, s.prefs, s.slots, s.handles;
      open, loggedIn, pcs, panicked, wrapped := s.open, s.loggedIn, s.pcs, s.panicked, s.wrapped;
    }

    /** The other threads run; an event that is not theirs or not enabled is skipped, and so is one
        that would take a reference count out of range. */
    method Interfere(t: Thread, batch: seq<Event>)
      requires Good(Now())
      modifies this
      ensures Good(Now()) && Does(old(Now()), t, [], Now()) && PcOf(Now(), t) == old(PcOf(Now(), t))
      ensures PI.Evolves(old(pools), pools)
    {
      Nothing(Now(), t);
      PS.SamePools(pools);
      for i := 0 to |batch|
        invariant Good(Now()) && Does(old(Now()), t, [], Now()) && PcOf(Now(), t) == old(PcOf(Now(), t))
        invariant PI.Evolves(old(pools), pools)
      {
        var e := batch[i];
        if e.t != t && Enabled(Now(), e) && !Apply(Now(), e).wrapped {
          OthersMove(old(Now()), t, Now(), e);
          var s := Apply(Now(), e);
          SF.EvolvesTransitive(old(pools), pools, s.pools);
          Become(s);
        }
      }
    }

    /** Lines 90 to 97 and 124 to 153, under cacheLock. */
    method Find(t: Thread)
      requires Enabled(Now(), FindPool(t))
      modifies this
      ensures Now() == Apply(old(Now()), FindPool(t))
    {
      var Login(c, seen, _) := pcs[t];
      if c.key in cache {
        pcs := pcs[t := Login(c, seen, AwaitLive(cache[c.key]))];
        return;
      }
      var max: uint;
      if c.info.maxSessionCount == CK_UNAVAILABLE_INFORMATION || c.info.maxSessionCount == CK_EFFECTIVELY_INFINITE {
        max := UINT_MOD - 1;
      } else {
        max := c.info.maxRwSessionCount;
      }
      if max < 2 {
        pcs := pcs[t := Returned(LoginFailed)];
        return;
      }
      pools := pools + [Pool(c.key, c.mod, c.pin, max, 1, false, false, None, BC.Counter(max - 1, {}, {}, false, false),
                             false, false, false, 0, Some(t))];
      cache := cache[c.key := |pools| - 1];
      pcs := pcs[t := Work(c.app, |pools| - 1, Opening)];
    }

    // ---- incRefs -----------------------------------------------------------------------------------

    method Load(t: Thread) returns (v: uint32)
      requires Enabled(Now(), LoadRefs(t))
      modifies this`pcs
      ensures Now() == Apply(old(Now()), LoadRefs(t)) && v == PoolOf(old(Now()), t).refs
    {
      var pc := pcs[t];
      v := pools[Subject(pc).value].refs;
      match pc
      case Login(c, seen, at) => pcs := pcs[t := Login(c, seen, if v == 0 then AwaitDead(at.p) else CasInc(at.p, v))];
      case Dec(app, p, _) => pcs := pcs[t := if v == 0 then Returned(DropDone(true)) else Dec(app, p, CasDec(v))];
    }

    method SwapInc(t: Thread) returns (swapped: bool)
      requires Enabled(Now(), SwapRefs(t)) && PcOf(Now(), t).Login?
      modifies this
      ensures Now() == Apply(old(Now()), SwapRefs(t))
      ensures swapped <==> PoolOf(old(Now()), t).refs == old(PcOf(Now(), t)).at.v
    {
      var Login(c, seen, at) := pcs[t];
      var CasInc(p, v) := at;
      if pools[p].refs != v {
        pcs := pcs[t := Login(c, seen, LoadInc(p))];
        return false;
      }
      if v == UINT32_MOD - 1 {
        wrapped := true;
        return true;
      }
      pools := pools[p := pools[p].(refs := v + 1)];
      prefs := prefs + [Ref(p, c.app, c.pin, t, false)];
      pcs := pcs[t := Returned(LoggedIn(|prefs| - 1))];
      return true;
    }

    /** Lets the others run while the thread is between two sections. */
    method Pause(t: Thread, others: Others) returns (rest: Others)
      requires Good(Now())
      modifies this
      ensures Good(Now()) && Does(old(Now()), t, [], Now()) && PcOf(Now(), t) == old(PcOf(Now(), t))
      ensures Goes(old(Now()), t, Now())
      ensures if others == [] then rest == [] && Now() == old(Now()) else |rest| < |others|
      ensures PI.Evolves(old(pools), pools)
    {
      Nothing(Now(), t);
      PS.SamePools(pools);
      rest := others;
      if rest != [] {
        Interfere(t, rest[0]);
        rest := rest[1..];
      }
      DoesGoes(old(Now()), t, [], Now());
    }

    /** One round of incRefs: load, and if the count is not zero, compare and swap. */
    method TryInc(t: Thread, others: Others) returns (zero: bool, rest: Others)
      requires Good(Now()) && PcOf(Now(), t).Login? && PcOf(Now(), t).at.LoadInc?
      modifies this
      ensures Reached(Now()) && Goes(old(Now()), t, Now()) && |rest| <= |others|
      ensures var Login(c, seen, at) := old(PcOf(Now(), t)); var pc := PcOf(Now(), t);
              if zero then rest == others && !wrapped && pools == old(pools) && pc == Login(c, seen, AwaitDead(at.p))
              else wrapped || Granted(Now(), t, c) || (|rest| < |others| && pc == Login(c, seen, LoadInc(at.p)))
      ensures others == [] && Countable(old(Now()), t) ==> !zero && Granted(Now(), t, old(PcOf(Now(), t)).c)
    {
      Rests(Now(), t);
      CallerKnown(Now(), t);
      Step(Now(), t, Now(), LoadRefs(t));
      LoadMoves(Now(), t);
      var v := Load(t);
      if v == 0 {
        return true, others;
      }
      ghost var loaded := Now();
      rest := Pause(t, others);
      GoesOn(old(Now()), t, loaded, Now());
      CallerKnown(Now(), t);
      Step(old(Now()), t, Now(), SwapRefs(t));
      SwapMoves(Now(), t);
      var swapped := SwapInc(t);
      return false, rest;
    }

    /** incRefs, and on success the new PoolRef. */
    method IncRefs(t: Thread, others: Others) returns (ok: bool, rest: Others)
      requires Good(Now()) && PcOf(Now(), t).Login? && PcOf(Now(), t).at.LoadInc?
      modifies this
      ensures Reached(Now()) && Goes(old(Now()), t, Now()) && |rest| <= |others|
      ensures var Login(c, seen, at) := old(PcOf(Now(), t));
              if ok then wrapped || Granted(Now(), t, c) else !wrapped && PcOf(Now(), t) == Login(c, seen, AwaitDead(at.p))
      ensures !ok && |rest| == |others| ==> pools == old(pools)
      ensures others == [] && Countable(old(Now()), t) ==> ok && Granted(Now(), t, old(PcOf(Now(), t)).c)
    {
      rest := others;
      Rests(Now(), t);
      ghost var Login(c, seen, at) := pcs[t];
      while true
        invariant Good(Now()) && Goes(old(Now()), t, Now()) && |rest| <= |others|
        invariant others == [] ==> Now() == old(Now())
        invariant PcOf(Now(), t) == Login(c, seen, LoadInc(at.p))
        invariant |rest| == |others| ==> pools == old(pools)
        decreases |rest|
      {
        ghost var before := Now();
        var zero;
        zero, rest := TryInc(t, rest);
        GoesOn(old(Now()), t, before, Now());
        if zero || wrapped || pcs[t].Returned? {
          return !zero, rest;
        }
      }
    }

    // ---- Login -------------------------------------------------------------------------------------

    /** The select of line 98. */
    method SelectLive(t: Thread, patient: bool) returns (ghost e: Event)
      requires PcOf(Now(), t).Login? && PcOf(Now(), t).at.AwaitLive? && Known(Now(), t) && !panicked
      modifies this`pcs
      ensures Enabled(old(Now()), e) && Now() == Apply(old(Now()), e)
      ensures e in {SeeLive(t), SeeDead(t), GiveUp(t)}
      ensures patient && e == GiveUp(t) ==> !PoolOf(old(Now()), t).live && !PoolOf(old(Now()), t).dead
    {
      var Login(c, seen, at) := pcs[t];
      if
      case pools[at.p].live =>
        e := SeeLive(t);
        if c.pin != pools[at.p].pin {
          pcs := pcs[t := Returned(LoginFailed)];
        } else {
          pcs := pcs[t := Login(c, seen, LoadInc(at.p))];
        }
      case pools[at.p].dead =>
        e := SeeDead(t);
        pcs := pcs[t := Login(c, seen + {at.p}, Lookup)];
      case !patient || !(pools[at.p].live || pools[at.p].dead) =>
        e := GiveUp(t);
        pcs := pcs[t := Returned(LoginFailed)];
    }

    /** The select of line 112. */
    method SelectDead(t: Thread, patient: bool) returns (ghost e: Event)
      requires PcOf(Now(), t).Login? && PcOf(Now(), t).at.AwaitDead? && Known(Now(), t) && !panicked
      modifies this`pcs
      ensures Enabled(old(Now()), e) && Now() == Apply(old(Now()), e)
      ensures e in {SeeDead(t), GiveUp(t)}
      ensures patient && e == GiveUp(t) ==> !PoolOf(old(Now()), t).dead
    {
      var Login(c, seen, at) := pcs[t];
      if
      case pools[at.p].dead =>
        e := SeeDead(t);
        pcs := pcs[t := Login(c, seen + {at.p}, Lookup)];
      case !patient || !pools[at.p].dead =>
        e := GiveUp(t);
        pcs := pcs[t := Returned(LoginFailed)];
    }

    method Wake(t: Thread, patient: bool)
      requires Good(Now()) && PcOf(Now(), t).Login? && (PcOf(Now(), t).at.AwaitLive? || PcOf(Now(), t).at.AwaitDead?)
      modifies this
      ensures Good(Now()) && Goes(old(Now()), t, Now()) && pools == old(pools)
      ensures var Login(c, seen, at) := old(PcOf(Now(), t)); var pc := PcOf(Now(), t);
              pc == Returned(LoginFailed) || (at.AwaitLive? && pc == Login(c, seen, LoadInc(at.p))) ||
              (pc == Login(c, seen + {at.p}, Lookup) && at.p < |pools| && pools[at.p].dead)
      ensures patient && Welcome(old(Now()), t) ==>
        var Login(c, seen, at) := old(PcOf(Now(), t)); PcOf(Now(), t) == Login(c, seen, LoadInc(at.p))
      ensures patient && Awaited(old(Now()), t) && PcOf(Now(), t) == Returned(LoginFailed) ==>
        WrongPin(pools, old(PcOf(Now(), t)).at.p, old(PcOf(Now(), t)).c)
    {
      Rests(Now(), t);
      CallerKnown(Now(), t);
      AwaitsOwnKey(Now(), t);
      ghost var before, e := Now(), GiveUp(t);
      if pcs[t].at.AwaitLive? {
        e := SelectLive(t, patient);
      } else {
        e := SelectDead(t, patient);
      }
      Step(before, t, before, e);
    }

    /** Waits for live or dead to be closed; the caller goes on to incRefs, starts over or is done. */
    method AwaitPool(t: Thread, others: Others, patient: bool) returns (rest: Others)
      requires Good(Now()) && PcOf(Now(), t).Login? && (PcOf(Now(), t).at.AwaitLive? || PcOf(Now(), t).at.AwaitDead?)
      modifies this
      ensures Good(Now()) && Goes(old(Now()), t, Now()) && |rest| <= |others|
      ensures var Login(c, seen, at) := old(PcOf(Now(), t)); var pc := PcOf(Now(), t);
              pc == Returned(LoginFailed) || (at.AwaitLive? && pc == Login(c, seen, LoadInc(at.p))) ||
              (pc == Login(c, seen + {at.p}, Lookup) && at.p < |pools| && pools[at.p].dead)
      ensures |rest| == |others| ==> pools == old(pools)
      ensures patient && Welcome(old(Now()), t) ==>
        var Login(c, seen, at) := old(PcOf(Now(), t)); PcOf(Now(), t) == Login(c, seen, LoadInc(at.p))
      ensures patient && PcOf(Now(), t) == Returned(LoginFailed) ==>
        rest == [] || WrongPin(pools, old(PcOf(Now(), t)).at.p, old(PcOf(Now(), t)).c)
    {
      Rests(Now(), t);
      rest := others;
      ghost var pc := PcOf(Now(), t);
      var p := pcs[t].at.p;
      CallerKnown(Now(), t);
      while rest != [] && !pools[p].dead && (pcs[t].at.AwaitDead? || !pools[p].live)
        invariant Good(Now()) && Goes(old(Now()), t, Now()) && |rest| <= |others|
        invariant PcOf(Now(), t) == pc && p < |pools|
        invariant |rest| == |others| || Welcome(old(Now()), t) ==> Now() == old(Now())
        decreases |rest|
      {
        ghost var before := Now();
        rest := Pause(t, rest);
        GoesOn(old(Now()), t, before, Now());
        CallerKnown(Now(), t);
      }
      ghost var before := Now();
      Wake(t, patient);
      GoesOn(old(Now()), t, before, Now());
    }

    method OpenSession(t: Thread, ok: bool)
      requires Enabled(Now(), OpenMain(t, ok))
      modifies this
      ensures Now() == Apply(old(Now()), OpenMain(t, ok))
    {
      var Work(app, p, _) := pcs[t];
      if !ok {
        pcs := pcs[t := Work(app, p, RollingBack)];
        return;
      }
      var id := |slots|;
      slots, open := slots + [Slot(p, Main)], open + {id};
      pools := pools[p := pools[p].(main := Some(id))];
      pcs := pcs[t := Work(app, p, LoggingIn(id))];
    }

    /** Lines 175 to 185: log in, close live and return the first reference. */
    method LoginSession(t: Thread, ok: bool)
      requires Enabled(Now(), LoginMain(t, ok))
      modifies this
      ensures Now() == Apply(old(Now()), LoginMain(t, ok))
    {
      var Work(app, p, work) := pcs[t];
      if !ok {
        pcs := pcs[t := Work(app, p, Unwinding(work.id))];
        return;
      }
      loggedIn := loggedIn + {pools[p].key};
      panicked := panicked || pools[p].live;
      pools := pools[p := pools[p].(live := true, worker := None)];
      prefs := prefs + [Ref(p, app, pools[p].pin, t, false)];
      pcs := pcs[t := Returned(LoggedIn(|prefs| - 1))];
    }

    method UnwindSession(t: Thread, ok: bool)
      requires Enabled(Now(), CloseMain(t, ok))
      modifies this
      ensures Now() == Apply(old(Now()), CloseMain(t, ok))
    {
      var Work(app, p, work) := pcs[t];
      var id := work.id;
      if ok {
        if SessionsOf(Now(), pools[p].key) <= {id} {
          loggedIn := loggedIn - {pools[p].key};
        }
        open := open - {id};
      }
      if id < |slots| {
        slots := slots[id := slots[id].(owner := Gone)];
      }
      pools := pools[p := pools[p].(main := None)];
      pcs := pcs[t := Work(app, p, RollingBack)];
    }

    /** Lines 161 to 163 and 236 to 238, under cacheLock. */
    method RemovePool(t: Thread)
      requires Enabled(Now(), Remove(t))
      modifies this
      ensures Now() == Apply(old(Now()), Remove(t))
    {
      var Work(app, p, work) := pcs[t];
      cache := cache - {pools[p].key};
      pools := pools[p := pools[p].(removed := true)];
      pcs := pcs[t := Work(app, p, if work.RollingBack? then RollingDead else Burying(work.clean))];
    }

    method CloseDead(t: Thread)
      requires Enabled(Now(), Bury(t))
      modifies this
      ensures Now() == Apply(old(Now()), Bury(t))
    {
      var Work(app, p, work) := pcs[t];
      panicked := panicked || pools[p].dead;
      pools := pools[p := pools[p].(dead := true, worker := None)];
      pcs := pcs[t := Returned(if work.RollingDead? then LoginFailed else DropDone(work.clean))];
    }

    /** The deferred functions of Login and Drop: delete the pool from the cache, then close dead. */
    method Retire(t: Thread, others: Others) returns (rest: Others)
      requires Good(Now()) && PcOf(Now(), t).Work? && (PcOf(Now(), t).work.RollingBack? || PcOf(Now(), t).work.Removing?)
      modifies this
      ensures Good(Now()) && Does(old(Now()), t, Retired(t), Now()) && |rest| <= |others|
      ensures var Work(_, p, work) := old(PcOf(Now(), t));
              Buried(Now(), p) && PcOf(Now(), t) == Returned(if work.RollingBack? then LoginFailed else DropDone(work.clean))
    {
      WorkerKnown(Now(), t);
      Moves(Now(), Remove(t));
      RemovePool(t);
      ghost var before := Now();
      rest := EndRetire(t, others);
      Then(old(Now()), t, [Remove(t)], before, [Bury(t)], Now());
    }

    method EndRetire(t: Thread, others: Others) returns (rest: Others)
      requires Good(Now()) && PcOf(Now(), t).Work? && (PcOf(Now(), t).work.RollingDead? || PcOf(Now(), t).work.Burying?)
      requires PcOf(Now(), t).p < |pools| && pools[PcOf(Now(), t).p].removed
      modifies this
      ensures Good(Now()) && Does(old(Now()), t, [Bury(t)], Now()) && |rest| <= |others|
      ensures var Work(_, p, work) := old(PcOf(Now(), t));
              Buried(Now(), p) && PcOf(Now(), t) == Returned(if work.RollingDead? then LoginFailed else DropDone(work.clean))
    {
      rest := Pause(t, others);
      ghost var before := Now();
      WorkerKnown(before, t);
      Moves(before, Bury(t));
      CloseDead(t);
      Aside(old(Now()), t, [], before, [Bury(t)], Now());
    }

    /** Lines 169 to 185 and the deferred rollback. `opens`, `logsIn` and `closes` are the outcomes of
        the three calls into the library; C_Login fails on a token that is logged in. Either the pool
        is live and its first reference is returned, or the pool is removed and dead. */
    method SetUp(t: Thread, c: Call, others: Others, opens: bool, logsIn: bool, closes: bool) returns (ok: bool, rest: Others)
      requires Good(Now()) && SettingUp(Now(), t, c) && PcOf(Now(), t).work.Opening?
      modifies this
      ensures Good(Now()) && |rest| <= |others|
      ensures Does(old(Now()), t, [OpenMain(t, opens)] + if opens then LoginSteps(t, ok, closes) else Retired(t), Now())
      ensures if ok then Granted(Now(), t, c) else PcOf(Now(), t) == Returned(LoginFailed) && Buried(Now(), old(PcOf(Now(), t)).p)
      ensures ok ==> opens
      ensures opens ==> LoginDecided(old(Now()), t, [OpenMain(t, opens)], c.key, logsIn, ok)
      ensures others == [] && opens && logsIn && c.key !in old(loggedIn) ==> ok
    {
      WorkerKnown(Now(), t);
      Moves(Now(), OpenMain(t, opens));
      OpenMoves(Now(), t, opens);
      OpenSession(t, opens);
      ghost var begun := Now();
      if opens {
        ok, rest := LogIn(t, c, others, logsIn, closes);
        DecidedAfter(old(Now()), t, OpenMain(t, opens), begun, c.key, logsIn, ok);
        Then(old(Now()), t, [OpenMain(t, opens)], begun, LoginSteps(t, ok, closes), Now());
      } else {
        ok := false;
        rest := Retire(t, others);
        Then(old(Now()), t, [OpenMain(t, opens)], begun, Retired(t), Now());
      }
    }

    method LogIn(t: Thread, c: Call, others: Others, logsIn: bool, closes: bool) returns (ok: bool, rest: Others)
      requires Good(Now()) && SettingUp(Now(), t, c) && PcOf(Now(), t).work.LoggingIn?
      modifies this
      ensures Good(Now()) && Does(old(Now()), t, LoginSteps(t, ok, closes), Now()) && |rest| <= |others|
      ensures if ok then Granted(Now(), t, c) else PcOf(Now(), t) == Returned(LoginFailed) && Buried(Now(), old(PcOf(Now(), t)).p)
      ensures LoginDecided(old(Now()), t, [], c.key, logsIn, ok)
      ensures others == [] && logsIn && c.key !in old(loggedIn) ==> ok
    {
      rest := Pause(t, others);
      ghost var before := Now();
      WorkerKnown(before, t);
      ok := logsIn && pools[pcs[t].p].key !in loggedIn;
      Moves(before, LoginMain(t, ok));
      LoginMoves(before, t, c, ok);
      LoginSession(t, ok);
      Aside(old(Now()), t, [], before, [LoginMain(t, ok)], Now());
      if ok {
        assert [LoginMain(t, ok)] + [] == [LoginMain(t, ok)];
      } else {
        ghost var failed := Now();
        rest := Unwind(t, rest, closes);
        Then(old(Now()), t, [LoginMain(t, ok)], failed, [CloseMain(t, closes)] + Retired(t), Now());
      }
    }

    method Unwind(t: Thread, others: Others, closes: bool) returns (rest: Others)
      requires Good(Now()) && PcOf(Now(), t).Work? && PcOf(Now(), t).work.Unwinding?
      modifies this
      ensures Good(Now()) && Does(old(Now()), t, [CloseMain(t, closes)] + Retired(t), Now()) && |rest| <= |others|
      ensures PcOf(Now(), t) == Returned(LoginFailed) && Buried(Now(), old(PcOf(Now(), t)).p)
    {
      rest := Pause(t, others);
      ghost var before := Now();
      WorkerKnown(before, t);
      Moves(before, CloseMain(t, closes));
      CloseMoves(before, t, closes);
      UnwindSession(t, closes);
      Aside(old(Now()), t, [], before, [CloseMain(t, closes)], Now());
      ghost var closed := Now();
      rest := Retire(t, rest);
      Then(old(Now()), t, [CloseMain(t, closes)], closed, Retired(t), Now());
    }

    /** One round of the loop of Login; a round that is repeated follows a change by others. */
    method TryLogin(t: Thread, c: Call, others: Others, patient: bool, opens: bool, logsIn: bool, closes: bool)
      returns (rest: Others)
      requires Good(Now()) && PcOf(Now(), t).Login? && PcOf(Now(), t).at.Lookup? && PcOf(Now(), t).c == c
      modifies this
      ensures Reached(Now()) && Goes(old(Now()), t, Now()) && |rest| <= |others|
      ensures wrapped || PcOf(Now(), t) == Returned(LoginFailed) || Granted(Now(), t, c) || (
                PcOf(Now(), t).Login? && PcOf(Now(), t).at.Lookup? && PcOf(Now(), t).c == c && |rest| < |others|)
      ensures others == [] && ((patient && CanShare(old(Now()), c)) || (opens && logsIn && CanInsert(old(Now()), c))) ==>
        Granted(Now(), t, c)
      ensures patient && !wrapped && PcOf(Now(), t) == Returned(LoginFailed) ==> rest == [] || Refused(old(Now()), t, c, Now())
    {
      rest := others;
      Rests(Now(), t);
      CallerKnown(Now(), t);
      Step(Now(), t, Now(), FindPool(t));
      FindMoves(Now(), t);
      Find(t);
      if pcs[t].Returned? {
        return;
      }
      ghost var found := Now();
      if pcs[t].Work? {
        var ok;
        ok, rest := SetUp(t, c, rest, opens, logsIn, closes);
        SetUpGoes(found, t, opens, ok, closes, Now());
      } else {
        rest := Join(t, c, rest, patient);
      }
      GoesOn(old(Now()), t, found, Now());
      assert found.pcs[t].Work? && PcOf(Now(), t) == Returned(LoginFailed) ==> FailedSetUp(old(Now()), t, c, Now());
    }

    /** Lines 98 to 121. */
    method Join(t: Thread, c: Call, others: Others, patient: bool) returns (rest: Others)
      requires Good(Now()) && PcOf(Now(), t).Login? && PcOf(Now(), t).at.AwaitLive? && PcOf(Now(), t).c == c
      requires PcOf(Now(), t).at.p < |pools| && !pools[PcOf(Now(), t).at.p].dead
      modifies this
      ensures Reached(Now()) && Goes(old(Now()), t, Now()) && |rest| <= |others|
      ensures wrapped || PcOf(Now(), t) == Returned(LoginFailed) || Granted(Now(), t, c) || (
                PcOf(Now(), t).Login? && PcOf(Now(), t).at.Lookup? && PcOf(Now(), t).c == c && |rest| < |others|)
      ensures others == [] && patient && Welcome(old(Now()), t) && Countable(old(Now()), t) ==> Granted(Now(), t, c)
      ensures patient && !wrapped && PcOf(Now(), t) == Returned(LoginFailed) ==> rest == [] || exists p :: WrongPin(pools, p, c)
    {
      rest := AwaitPool(t, others, patient);
      if pcs[t].Login? && pcs[t].at.LoadInc? {
        ghost var live := Now();
        rest := CountIn(t, c, rest, patient);
        GoesOn(old(Now()), t, live, Now());
      }
    }

    /** Lines 110 to 121. */
    method CountIn(t: Thread, c: Call, others: Others, patient: bool) returns (rest: Others)
      requires Good(Now()) && PcOf(Now(), t).Login? && PcOf(Now(), t).at.LoadInc? && PcOf(Now(), t).c == c
      modifies this
      ensures Reached(Now()) && Goes(old(Now()), t, Now()) && |rest| <= |others|
      ensures wrapped || PcOf(Now(), t) == Returned(LoginFailed) || Granted(Now(), t, c) || (
                PcOf(Now(), t).Login? && PcOf(Now(), t).at.Lookup? && PcOf(Now(), t).c == c &&
                (|rest| < |others| || DeadAt(old(pools), old(PcOf(Now(), t)).at.p)))
      ensures others == [] && Countable(old(Now()), t) ==> Granted(Now(), t, c)
      ensures patient && !wrapped && PcOf(Now(), t) == Returned(LoginFailed) ==> rest == [] || exists p :: WrongPin(pools, p, c)
    {
      var ok;
      ok, rest := IncRefs(t, others);
      if !ok {
        ghost var closing := Now();
        rest := AwaitPool(t, rest, patient);
        GoesOn(old(Now()), t, closing, Now());
      }
    }

    /** Login returns, and its run is one of the protocol; it ends with an error or with a reference
        to a live pool for the caller's key and PIN. Without interference, a caller whose context does
        not end shares the live pool of its key, or inserts its own if the library lets it; and whatever
        the others do, it fails only because it was refused, or because the others have stopped. */
    method LoginPool(t: Thread, c: Call, others: Others, patient: bool, opens: bool, logsIn: bool, closes: bool)
      returns (rest: Others)
      requires Good(Now()) && PcOf(Now(), t).Idle? && !panicked
      modifies this
      ensures Reached(Now()) && Goes(Apply(old(Now()), CallLogin(t, c)), t, Now())
      ensures wrapped || PcOf(Now(), t) == Returned(LoginFailed) || Granted(Now(), t, c)
      ensures others == [] && ((patient && CanShare(old(Now()), c)) || (opens && logsIn && CanInsert(old(Now()), c))) ==>
        Granted(Now(), t, c)
      ensures patient && !wrapped && PcOf(Now(), t) == Returned(LoginFailed) ==>
        rest == [] || Refused(Apply(old(Now()), CallLogin(t, c)), t, c, Now())
    {
      rest := others;
      ReachedStep(Now(), CallLogin(t, c));
      pcs := pcs[t := Login(c, {}, Lookup)];
      ghost var called := Now();
      rest := TryLogin(t, c, rest, patient, opens, logsIn, closes);
      while !wrapped && PcOf(Now(), t).Login?
        invariant Reached(Now()) && Goes(called, t, Now())
        invariant wrapped || PcOf(Now(), t) == Returned(LoginFailed) || Granted(Now(), t, c) || (
                    PcOf(Now(), t).Login? && PcOf(Now(), t).at.Lookup? && PcOf(Now(), t).c == c)
        invariant others == [] && ((patient && CanShare(old(Now()), c)) || (opens && logsIn && CanInsert(old(Now()), c))) ==>
          Granted(Now(), t, c)
        invariant patient && !wrapped && PcOf(Now(), t) == Returned(LoginFailed) ==> rest == [] || Refused(called, t, c, Now())
        decreases |rest|, !wrapped && PcOf(Now(), t).Login?
      {
        ghost var before := Now();
        rest := TryLogin(t, c, rest, patient, opens, logsIn, closes);
        RefusedLater(called, t, c, before, Now());
        GoesOn(called, t, before, Now());
      }
    }

    // ---- Drop --------------------------------------------------------------------------------------

    method SwapDec(t: Thread) returns (swapped: bool)
      requires Enabled(Now(), SwapRefs(t)) && PcOf(Now(), t).Dec?
      modifies this
      ensures Now() == Apply(old(Now()), SwapRefs(t))
      ensures swapped <==> PoolOf(old(Now()), t).refs == old(PcOf(Now(), t)).dec.v
    {
      var Dec(app, p, dec) := pcs[t];
      var v := dec.v;
      if pools[p].refs != v {
        pcs := pcs[t := Dec(app, p, LoadDec)];
        return false;
      }
      if v > 1 {
        pools := pools[p := pools[p].(refs := v - 1)];
        pcs := pcs[t := Returned(DropDone(true))];
      } else {
        pools := pools[p := pools[p].(refs := 0, shutdowns := pools[p].shutdowns + 1, worker := Some(t))];
        pcs := pcs[t := Work(app, p, Shutting)];
      }
      return true;
    }

    method TryDec(t: Thread, others: Others) returns (rest: Others)
      requires Good(Now()) && PcOf(Now(), t).Dec? && PcOf(Now(), t).dec.LoadDec?
      modifies this
      ensures Good(Now()) && Goes(old(Now()), t, Now()) && |rest| <= |others| && t in pcs
      ensures Counts(old(Now()), t, Now()) || (|rest| < |others| && PcOf(Now(), t).Dec? && PcOf(Now(), t).dec.LoadDec?)
    {
      Rests(Now(), t);
      CallerKnown(Now(), t);
      Step(Now(), t, Now(), LoadRefs(t));
      DecMoves(Now(), t);
      var v := Load(t);
      if v == 0 {
        assert CountsAt(old(Now()), t, old(Now()), Now());
        return others;
      }
      ghost var loaded := Now();
      rest := Pause(t, others);
      GoesOn(old(Now()), t, loaded, Now());
      ghost var before := Now();
      CallerKnown(before, t);
      Step(old(Now()), t, before, SwapRefs(t));
      SwapDecMoves(before, t);
      var swapped := SwapDec(t);
      assert swapped ==> CountsAt(old(Now()), t, before, Now());
    }

    /** decRefs: its last step takes one reference off, unless the count is zero, and it returns with
        the pool to shut down exactly if that was the last one. */
    method DecRefs(t: Thread, others: Others) returns (rest: Others)
      requires Good(Now()) && PcOf(Now(), t).Dec? && PcOf(Now(), t).dec.LoadDec?
      modifies this
      ensures Good(Now()) && Goes(old(Now()), t, Now()) && |rest| <= |others|
      ensures Counts(old(Now()), t, Now())
    {
      Rests(Now(), t);
      rest := others;
      ghost var called := Now();
      while pcs[t].Dec?
        invariant Good(Now()) && Goes(called, t, Now()) && |rest| <= |others| && t in pcs
        invariant Counts(called, t, Now()) || (PcOf(Now(), t).Dec? && PcOf(Now(), t).dec.LoadDec?)
        decreases |rest|, pcs[t].Dec?
      {
        ghost var before := Now();
        rest := TryDec(t, rest);
        GoesOn(called, t, before, Now());
        CountsLater(called, t, before, Now());
      }
    }

    method ShutSema(t: Thread)
      requires Enabled(Now(), ShutSemaphore(t))
      modifies this
      ensures Now() == Apply(old(Now()), ShutSemaphore(t))
    {
      var Work(app, p, _) := pcs[t];
      var sema := pools[p].sema;
      pools := pools[p := pools[p].(sema := sema.(closed := true))];
      pcs := pcs[t := Work(app, p, Draining)];
    }

    /** The tokens are back, or the context ends. */
    method SelectDrained(t: Thread, patient: bool) returns (drained: bool)
      requires PcOf(Now(), t).Work? && PcOf(Now(), t).work.Draining? && Known(Now(), t) && !panicked
      requires PoolOf(Now(), t).sema.closed
      modifies this
      ensures var e := if drained then Drained(t) else GiveUp(t);
              Enabled(old(Now()), e) && Now() == Apply(old(Now()), e)
      ensures patient ==> (drained <==> PoolOf(old(Now()), t).sema.holders == {})
    {
      var Work(app, p, _) := pcs[t];
      if
      case pools[p].sema.holders == {} =>
        drained := true;
        var sema := pools[p].sema;
        pools := pools[p := pools[p].(sema := sema.(drained := true))];
        pcs := pcs[t := Work(app, p, LoggingOut(true))];
      case !patient || pools[p].sema.holders != {} =>
        drained := false;
        pcs := pcs[t := Work(app, p, LoggingOut(false))];
    }

    /** sema.Close(ctx): a patient one drains the pool exactly if the last token comes back. */
    method CloseSema(t: Thread, others: Others, patient: bool) returns (drained: bool, rest: Others)
      requires Good(Now()) && PcOf(Now(), t).Work? && PcOf(Now(), t).work.Shutting?
      modifies this
      ensures Good(Now()) && Does(old(Now()), t, DrainSteps(t, drained), Now()) && |rest| <= |others|
      ensures var Work(app, p, _) := old(PcOf(Now(), t));
              PcOf(Now(), t) == Work(app, p, LoggingOut(drained)) && p < |pools| &&
              (patient ==> (drained <==> pools[p].sema.holders == {})) && (drained || !patient || rest == [])
    {
      WorkerKnown(Now(), t);
      Moves(Now(), ShutSemaphore(t));
      WorkMoves(Now(), ShutSemaphore(t));
      ShutSema(t);
      ghost var shut := Now();
      drained, rest := AwaitTokens(t, others, patient);
      Then(old(Now()), t, [ShutSemaphore(t)], shut, [if drained then Drained(t) else GiveUp(t)], Now());
    }

    method AwaitTokens(t: Thread, others: Others, patient: bool) returns (drained: bool, rest: Others)
      requires Good(Now()) && PcOf(Now(), t).Work? && PcOf(Now(), t).work.Draining?
      modifies this
      ensures Good(Now()) && Does(old(Now()), t, [if drained then Drained(t) else GiveUp(t)], Now()) && |rest| <= |others|
      ensures var Work(app, p, _) := old(PcOf(Now(), t));
              PcOf(Now(), t) == Work(app, p, LoggingOut(drained)) && p < |pools| &&
              (patient ==> (drained <==> pools[p].sema.holders == {})) && (drained || !patient || rest == [])
    {
      rest := PauseWhileHeld(t, others);
      ghost var before := Now();
      WorkerKnown(before, t);
      drained := SelectDrained(t, patient);
      ghost var e := if drained then Drained(t) else GiveUp(t);
      Moves(before, e);
      WorkMoves(before, e);
      Aside(old(Now()), t, [], before, [e], Now());
    }

    method PauseWhileHeld(t: Thread, others: Others) returns (rest: Others)
      requires Good(Now()) && PcOf(Now(), t).Work? && PcOf(Now(), t).work.Draining?
      modifies this
      ensures Good(Now()) && Does(old(Now()), t, [], Now()) && |rest| <= |others| && PcOf(Now(), t) == old(PcOf(Now(), t))
      ensures rest == [] || (PcOf(Now(), t).p < |pools| && pools[PcOf(Now(), t).p].sema.holders == {})
    {
      Nothing(Now(), t);
      rest := others;
      WorkerKnown(Now(), t);
      var p := pcs[t].p;
      while rest != [] && pools[p].sema.holders != {}
        invariant Good(Now()) && Does(old(Now()), t, [], Now()) && |rest| <= |others|
        invariant PcOf(Now(), t) == old(PcOf(Now(), t)) && p < |pools|
        decreases |rest|
      {
        ghost var before := Now();
        rest := Pause(t, rest);
        Aside(old(Now()), t, [], before, [], Now());
      }
    }

    method LogoutToken(t: Thread, ok: bool)
      requires Enabled(Now(), Logout(t, ok))
      modifies this
      ensures Now() == Apply(old(Now()), Logout(t, ok))
    {
      var Work(app, p, work) := pcs[t];
      if ok {
        loggedIn := loggedIn - {pools[p].key};
      }
      pools := pools[p := pools[p].(loggedOut := true)];
      pcs := pcs[t := Work(app, p, ClosingAll(work.clean && ok))];
    }

    method CloseSessions(t: Thread, ok: bool)
      requires Enabled(Now(), CloseAll(t, ok))
      modifies this
      ensures Now() == Apply(old(Now()), CloseAll(t, ok))
    {
      var Work(app, p, work) := pcs[t];
      if ok {
        open, loggedIn := open - SessionsOf(Now(), pools[p].key), loggedIn - {pools[p].key};
      }
      pools := pools[p := pools[p].(emptied := true)];
      pcs := pcs[t := Work(app, p, Removing(work.clean && ok))];
    }

    /** Lines 244 to 256 and the deferred function before them: drain, log out, close all sessions,
        remove, close dead, in this order; without an error exactly if the first three succeeded. */
    method Shutdown(t: Thread, others: Others, patient: bool, logsOut: bool, closes: bool)
      returns (drained: bool, rest: Others)
      requires Good(Now()) && PcOf(Now(), t).Work? && PcOf(Now(), t).work.Shutting?
      modifies this
      ensures Good(Now()) && Does(old(Now()), t, ShutdownSteps(t, drained, logsOut, closes), Now()) && |rest| <= |others|
      ensures PcOf(Now(), t) == Returned(DropDone(drained && logsOut && closes)) && Buried(Now(), old(PcOf(Now(), t)).p)
      ensures patient && !drained ==> rest == []
    {
      drained, rest := CloseSema(t, others, patient);
      ghost var before := Now();
      rest := EndSessions(t, rest, logsOut, closes);
      Then(old(Now()), t, DrainSteps(t, drained), before, [Logout(t, logsOut)] + ([CloseAll(t, closes)] + Retired(t)), Now());
    }

    method EndSessions(t: Thread, others: Others, logsOut: bool, closes: bool) returns (rest: Others)
      requires Good(Now()) && PcOf(Now(), t).Work? && PcOf(Now(), t).work.LoggingOut?
      modifies this
      ensures Good(Now()) && |rest| <= |others|
      ensures Does(old(Now()), t, [Logout(t, logsOut)] + ([CloseAll(t, closes)] + Retired(t)), Now())
      ensures var Work(_, p, work) := old(PcOf(Now(), t));
              PcOf(Now(), t) == Returned(DropDone(work.clean && logsOut && closes)) && Buried(Now(), p)
    {
      WorkerKnown(Now(), t);
      Moves(Now(), Logout(t, logsOut));
      WorkMoves(Now(), Logout(t, logsOut));
      LogoutToken(t, logsOut);
      ghost var before := Now();
      rest := CloseAndRetire(t, others, closes);
      Then(old(Now()), t, [Logout(t, logsOut)], before, [CloseAll(t, closes)] + Retired(t), Now());
    }

    method CloseAndRetire(t: Thread, others: Others, closes: bool) returns (rest: Others)
      requires Good(Now()) && PcOf(Now(), t).Work? && PcOf(Now(), t).work.ClosingAll?
      modifies this
      ensures Good(Now()) && Does(old(Now()), t, [CloseAll(t, closes)] + Retired(t), Now()) && |rest| <= |others|
      ensures var Work(_, p, work) := old(PcOf(Now(), t));
              PcOf(Now(), t) == Returned(DropDone(work.clean && closes)) && Buried(Now(), p)
    {
      rest := Pause(t, others);
      ghost var before := Now();
      WorkerKnown(before, t);
      Moves(before, CloseAll(t, closes));
      WorkMoves(before, CloseAll(t, closes));
      CloseSessions(t, closes);
      Aside(old(Now()), t, [], before, [CloseAll(t, closes)], Now());
      before := Now();
      rest := Retire(t, rest);
      Then(old(Now()), t, [CloseAll(t, closes)], before, Retired(t), Now());
    }

    /** PoolRef.Drop: the first marks the reference and takes it off the count, and the one that takes the
        count to zero shuts the pool down, in the steps of Shutdown and with its result; a second Drop of
        the same reference is an error and changes nothing. */
    method Drop(t: Thread, r: RefId, others: Others, patient: bool, logsOut: bool, closes: bool) returns (rest: Others)
      requires Good(Now()) && PcOf(Now(), t).Idle? && !panicked && r < |prefs|
      modifies this
      ensures Good(Now()) && Goes(Apply(old(Now()), CallDrop(t, r)), t, Now())
      ensures PcOf(Now(), t).Returned? && PcOf(Now(), t).result.DropDone?
      ensures old(prefs)[r].dropped ==> Now() == Goto(old(Now()), t, Returned(DropDone(false)))
      ensures !old(prefs)[r].dropped ==>
        GivenBack(Apply(old(Now()), CallDrop(t, r)), t, logsOut, closes, Now()) &&
        (patient && logsOut && closes && !PcOf(Now(), t).result.clean ==> rest == [])
    {
      rest := others;
      ReachedStep(Now(), CallDrop(t, r));
      var ref := prefs[r];
      if ref.dropped {
        pcs := pcs[t := Returned(DropDone(false))];
        Rests(Now(), t);
        return;
      }
      prefs := prefs[r := ref.(dropped := true)];
      pcs := pcs[t := Dec(ref.app, ref.pool, LoadDec)];
      rest := DropMarked(t, rest, patient, logsOut, closes);
    }

    /** Lines 229 to 256. */
    method DropMarked(t: Thread, others: Others, patient: bool, logsOut: bool, closes: bool) returns (rest: Others)
      requires Good(Now()) && PcOf(Now(), t).Dec? && PcOf(Now(), t).dec.LoadDec?
      modifies this
      ensures Good(Now()) && Goes(old(Now()), t, Now())
      ensures PcOf(Now(), t).Returned? && PcOf(Now(), t).result.DropDone?
      ensures GivenBack(old(Now()), t, logsOut, closes, Now())
      ensures patient && logsOut && closes && !PcOf(Now(), t).result.clean ==> rest == []
    {
      rest := DecRefs(t, others);
      ghost var counted := Now();
      if PcOf(Now(), t).Work? {
        var drained;
        drained, rest := Shutdown(t, rest, patient, logsOut, closes);
        ShutdownGoes(counted, t, drained, logsOut, closes, Now());
        GoesOn(old(Now()), t, counted, Now());
      }
      assert Counts(old(Now()), t, counted);
    }

    // ---- Get and Handle.Close --------------------------------------------------------------------------

    /** sema.Acquire(ctx): the call begins, unless the semaphore is closed. */
    method BeginAcquire(t: Thread, r: RefId)
      requires Enabled(Now(), CallGet(t, r))
      modifies this
      ensures Now() == Apply(old(Now()), CallGet(t, r))
    {
      var p, id := prefs[r].pool, |slots|;
      var sema := pools[p].sema;
      if sema.closed || id in sema.calls + sema.holders {
        pcs := pcs[t := Returned(SessionDone)];
        return;
      }
      slots := slots + [Slot(p, OfThread(t))];
      pools := pools[p := pools[p].(sema := sema.(calls := sema.calls + {id}))];
      pcs := pcs[t := Token(p, id, Getting)];
    }

    /** A token is granted, or the call fails: its context ends, or the semaphore is closed. */
    method SelectToken(t: Thread, patient: bool) returns (taken: bool)
      requires PcOf(Now(), t).Token? && PcOf(Now(), t).token.Getting? && Known(Now(), t) && !panicked
      requires PcOf(Now(), t).id in PoolOf(Now(), t).sema.calls && PcOf(Now(), t).id < |slots|
      modifies this
      ensures var e := if taken then TakeToken(t) else GiveUp(t); Enabled(old(Now()), e) && Now() == Apply(old(Now()), e)
      ensures patient && !taken ==> PoolOf(old(Now()), t).sema.closed || !HasRoom(PoolOf(old(Now()), t).sema)
    {
      var Token(p, id, _) := pcs[t];
      var sema := pools[p].sema;
      if
      case HasRoom(sema) =>
        taken := true;
        pools := pools[p := pools[p].(sema := sema.(calls := sema.calls - {id}, holders := sema.holders + {id}))];
        pcs := pcs[t := Token(p, id, Got)];
      case !patient || sema.closed || !HasRoom(sema) =>
        taken := false;
        pools := pools[p := pools[p].(sema := sema.(calls := sema.calls - {id}))];
        slots := slots[id := slots[id].(owner := Gone)];
        pcs := pcs[t := Returned(SessionDone)];
    }

    method OpenTempSession(t: Thread, ok: bool)
      requires Enabled(Now(), OpenTemp(t, ok)) && PcOf(Now(), t).id < |slots|
      modifies this
      ensures Now() == Apply(old(Now()), OpenTemp(t, ok))
    {
      var Token(p, id, _) := pcs[t];
      if !ok {
        pcs := pcs[t := Token(p, id, Releasing)];
        return;
      }
      open, handles := open + {id}, handles + [Handle(p, id, false)];
      slots := slots[id := slots[id].(owner := OfHandle(|handles| - 1))];
      pcs := pcs[t := Returned(SessionDone)];
    }

    method CloseTempSession(t: Thread, ok: bool)
      requires Enabled(Now(), CloseTemp(t, ok))
      modifies this
      ensures Now() == Apply(old(Now()), CloseTemp(t, ok))
    {
      var Token(p, id, _) := pcs[t];
      if ok {
        if SessionsOf(Now(), pools[p].key) <= {id} {
          loggedIn := loggedIn - {pools[p].key};
        }
        open := open - {id};
      }
      pcs := pcs[t := Token(p, id, Releasing)];
    }

    method GiveToken(t: Thread)
      requires Enabled(Now(), ReleaseToken(t)) && PcOf(Now(), t).id < |slots|
      modifies this
      ensures Now() == Apply(old(Now()), ReleaseToken(t))
    {
      var Token(p, id, _) := pcs[t];
      var sema := pools[p].sema;
      pools := pools[p := pools[p].(sema := sema.(holders := sema.holders - {id}))];
      slots := slots[id := slots[id].(owner := Gone)];
      pcs := pcs[t := Returned(SessionDone)];
    }

    /** The deferred sema.Release() of a failed Get and of put. */
    method Release(t: Thread, others: Others) returns (rest: Others)
      requires Good(Now()) && PcOf(Now(), t).Token? && PcOf(Now(), t).token.Releasing?
      modifies this
      ensures Good(Now()) && Does(old(Now()), t, [ReleaseToken(t)], Now()) && PcOf(Now(), t) == Returned(SessionDone)
    {
      rest := Pause(t, others);
      ghost var before := Now();
      TokenKnown(before, t);
      Moves(before, ReleaseToken(t));
      TokenMoves(before, ReleaseToken(t));
      GiveToken(t);
      Aside(old(Now()), t, [], before, [ReleaseToken(t)], Now());
    }

    /** Get: the call is refused by a closed semaphore, fails while it waits, or takes a token; then it
        returns a handle to an open session, or gives the token back if none can be opened. A patient
        caller gets its token if one is free, and waits for one until the semaphore is closed or the
        others have stopped. */
    method Get(t: Thread, r: RefId, others: Others, patient: bool, opens: bool)
      returns (taken: bool, h: Option<HandleId>, rest: Others)
      requires Good(Now()) && Enabled(Now(), CallGet(t, r))
      modifies this
      ensures Good(Now()) && PcOf(Now(), t) == Returned(SessionDone)
      ensures if Accepts(old(Now()), r) then Does(old(Now()), t, [CallGet(t, r)] + GetSteps(t, taken, opens), Now())
              else !taken && Now() == Goto(old(Now()), t, Returned(SessionDone))
      ensures patient && Accepts(old(Now()), r) && HasRoom(old(pools)[old(prefs)[r].pool].sema) ==> taken
      ensures patient && Accepts(old(Now()), r) && !taken ==> rest == [] || ShutAt(pools, old(prefs)[r].pool)
      ensures h.Some? <==> taken && opens
      ensures h.Some? ==> Usable(Now(), h.value, old(prefs)[r].pool)
    {
      taken, h, rest := false, None, others;
      Moves(Now(), CallGet(t, r));
      GetMoves(Now(), t, r);
      BeginAcquire(t, r);
      if pcs[t].Token? {
        ghost var begun := Now();
        taken, h, rest := GetToken(t, others, patient, opens);
        Then(old(Now()), t, [CallGet(t, r)], begun, GetSteps(t, taken, opens), Now());
      }
    }

    method GetToken(t: Thread, others: Others, patient: bool, opens: bool)
      returns (taken: bool, h: Option<HandleId>, rest: Others)
      requires Good(Now()) && PcOf(Now(), t).Token? && PcOf(Now(), t).token.Getting?
      modifies this
      ensures Good(Now()) && PcOf(Now(), t) == Returned(SessionDone) && Does(old(Now()), t, GetSteps(t, taken, opens), Now())
      ensures patient && Admits(old(Now()), t) ==> taken
      ensures patient && !taken ==> rest == [] || ShutAt(pools, old(PcOf(Now(), t)).p)
      ensures h.Some? <==> taken && opens
      ensures h.Some? ==> Usable(Now(), h.value, old(PcOf(Now(), t)).p)
    {
      h := None;
      taken, rest := AwaitToken(t, others, patient);
      if taken {
        ghost var before := Now();
        h, rest := OpenTaken(t, rest, opens);
        Then(old(Now()), t, [TakeToken(t)], before, OpenSteps(t, opens), Now());
      }
    }

    method AwaitToken(t: Thread, others: Others, patient: bool) returns (taken: bool, rest: Others)
      requires Good(Now()) && PcOf(Now(), t).Token? && PcOf(Now(), t).token.Getting?
      modifies this
      ensures Good(Now()) && Does(old(Now()), t, [if taken then TakeToken(t) else GiveUp(t)], Now()) && |rest| <= |others|
      ensures if taken then PcOf(Now(), t).Token? && PcOf(Now(), t).token.Got? && PcOf(Now(), t).p == old(PcOf(Now(), t)).p
              else PcOf(Now(), t) == Returned(SessionDone)
      ensures patient && Admits(old(Now()), t) ==> taken
      ensures patient && !taken ==> rest == [] || ShutAt(pools, old(PcOf(Now(), t)).p)
    {
      rest := PauseWhileFull(t, others);
      ghost var before := Now();
      TokenKnown(before, t);
      taken := SelectToken(t, patient);
      ghost var e := if taken then TakeToken(t) else GiveUp(t);
      Moves(before, e);
      TokenMoves(before, e);
      Aside(old(Now()), t, [], before, [e], Now());
    }

    method PauseWhileFull(t: Thread, others: Others) returns (rest: Others)
      requires Good(Now()) && PcOf(Now(), t).Token? && PcOf(Now(), t).token.Getting?
      modifies this
      ensures Good(Now()) && Does(old(Now()), t, [], Now()) && |rest| <= |others| && PcOf(Now(), t) == old(PcOf(Now(), t))
      ensures Admits(old(Now()), t) ==> Now() == old(Now())
      ensures var p := PcOf(Now(), t).p; rest == [] || ShutAt(pools, p) || (p < |pools| && HasRoom(pools[p].sema))
    {
      Nothing(Now(), t);
      rest := others;
      TokenKnown(Now(), t);
      var p := pcs[t].p;
      while rest != [] && !pools[p].sema.closed && !HasRoom(pools[p].sema)
        invariant Good(Now()) && Does(old(Now()), t, [], Now()) && |rest| <= |others|
        invariant PcOf(Now(), t) == old(PcOf(Now(), t)) && p < |pools|
        invariant Admits(old(Now()), t) ==> Now() == old(Now())
        decreases |rest|
      {
        ghost var before := Now();
        rest := Pause(t, rest);
        Aside(old(Now()), t, [], before, [], Now());
      }
    }

    method OpenTaken(t: Thread, others: Others, opens: bool) returns (h: Option<HandleId>, rest: Others)
      requires Good(Now()) && PcOf(Now(), t).Token? && PcOf(Now(), t).token.Got?
      modifies this
      ensures Good(Now()) && PcOf(Now(), t) == Returned(SessionDone) && Does(old(Now()), t, OpenSteps(t, opens), Now())
      ensures h.Some? <==> opens
      ensures h.Some? ==> Usable(Now(), h.value, old(PcOf(Now(), t)).p)
    {
      h := None;
      rest := Pause(t, others);
      ghost var before := Now();
      TokenKnown(before, t);
      Moves(before, OpenTemp(t, opens));
      TokenMoves(before, OpenTemp(t, opens));
      OpenTempSession(t, opens);
      Aside(old(Now()), t, [], before, [OpenTemp(t, opens)], Now());
      if opens {
        assert [OpenTemp(t, opens)] + [] == [OpenTemp(t, opens)];
        return Some(|handles| - 1), rest;
      }
      before := Now();
      rest := Release(t, rest);
      Then(old(Now()), t, [OpenTemp(t, opens)], before, [ReleaseToken(t)], Now());
    }

    /** Handle.Close: only the first closes the session and gives the token back, whether or not the session
        can be closed. */
    method CloseHandle(t: Thread, h: HandleId, others: Others, closes: bool) returns (rest: Others)
      requires Good(Now()) && Enabled(Now(), CallCloseHandle(t, h))
      modifies this
      ensures Good(Now()) && PcOf(Now(), t) == Returned(SessionDone)
      ensures old(handles)[h].closed ==> Now() == Goto(old(Now()), t, Returned(SessionDone))
      ensures !old(handles)[h].closed ==>
        Does(old(Now()), t, [CallCloseHandle(t, h)] + ([CloseTemp(t, closes)] + [ReleaseToken(t)]), Now())
    {
      rest := others;
      Moves(Now(), CallCloseHandle(t, h));
      TokenMoves(Now(), CallCloseHandle(t, h));
      if handles[h].closed {
        pcs := pcs[t := Returned(SessionDone)];
        return;
      }
      MarkHandle(t, h);
      ghost var marked := Now();
      rest := Put(t, rest, closes);
      Then(old(Now()), t, [CallCloseHandle(t, h)], marked, [CloseTemp(t, closes)] + [ReleaseToken(t)], Now());
    }

    method MarkHandle(t: Thread, h: HandleId)
      requires Enabled(Now(), CallCloseHandle(t, h)) && !handles[h].closed
      modifies this
      ensures Now() == Apply(old(Now()), CallCloseHandle(t, h))
      ensures PcOf(Now(), t).Token? && PcOf(Now(), t).token.ClosingSession? && wrapped == old(wrapped)
    {
      var handle := handles[h];
      handles := handles[h := handle.(closed := true)];
      if handle.id < |slots| {
        slots := slots[handle.id := slots[handle.id].(owner := OfThread(t))];
      }
      pcs := pcs[t := Token(handle.pool, handle.id, ClosingSession)];
    }

    /** put: close the session, then give the token back in any case. */
    method Put(t: Thread, others: Others, closes: bool) returns (rest: Others)
      requires Good(Now()) && PcOf(Now(), t).Token? && PcOf(Now(), t).token.ClosingSession?
      modifies this
      ensures Good(Now()) && PcOf(Now(), t) == Returned(SessionDone)
      ensures Does(old(Now()), t, [CloseTemp(t, closes)] + [ReleaseToken(t)], Now())
    {
      rest := Pause(t, others);
      ghost var before := Now();
      TokenKnown(before, t);
      Moves(before, CloseTemp(t, closes));
      TokenMoves(before, CloseTemp(t, closes));
      CloseTempSession(t, closes);
      Aside(old(Now()), t, [], before, [CloseTemp(t, closes)], Now());
      before := Now();
      rest := Release(t, rest);
      Then(old(Now()), t, [CloseTemp(t, closes)], before, [ReleaseToken(t)], Now());
    }
  }
}
