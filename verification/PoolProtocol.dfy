/** Session pools, kms/pkcs11/internal/session/pool.go and handle.go, under concurrent callers.

    A section under cacheLock is one event; the load and the compare-and-swap of incRefs and
    decRefs are two; so is every call into the PKCS #11 library, whose outcome is free. The
    semaphore of a pool is the atomic counter that SemaphoreRefinement proves the real one to
    implement. */
module PoolProtocol {
  import opened Common
  import BC = BoundedCounter

  type PoolId = nat     // pools in the order of their insertion
  type RefId = nat      // PoolRefs in the order they were returned by Login
  type HandleId = nat
  type Thread = nat
  type App = nat        // the KMS or wrapper on whose behalf a call is made
  type ModuleId = nat   // a loaded module instance
  type Digest = nat     // the SHA-256 digest of a PIN, taken as injective

  datatype Key = Key(slot: uint, path: nat)

  /** What pool.go reads of CK_TOKEN_INFO. */
  datatype TokenInfo = TokenInfo(maxSessionCount: uint, maxRwSessionCount: uint)

  const CK_UNAVAILABLE_INFORMATION: uint := UINT_MOD - 1
  const CK_EFFECTIVELY_INFINITE: uint := 0

  function MaxSessions(info: TokenInfo): uint {
    if info.maxSessionCount == CK_UNAVAILABLE_INFORMATION || info.maxSessionCount == CK_EFFECTIVELY_INFINITE
    then UINT_MOD - 1
    else info.maxRwSessionCount
  }

  /** The arguments of one Login. */
  datatype Call = Call(app: App, mod: ModuleId, key: Key, pin: Digest, info: TokenInfo)

  /** Tokens and sessions share one numbering: the session opened under a token has its number.
      `main` is the session Login opened for the pool. History variables: `removed` (deleted from
      the cache), `loggedOut` (Logout was called),
      `emptied` (CloseAllSessions was called), `shutdowns` (Drops that found zero) and `worker`
      (the thread that is setting the pool up, rolling it back or shutting it down). */
  datatype Pool = Pool(
    key: Key,
    mod: ModuleId,
    pin: Digest,
    max: uint,
    refs: uint32,
    live: bool,
    dead: bool,
    main: Option<nat>,
    sema: BC.Counter,
    removed: bool,
    loggedOut: bool,
    emptied: bool,
    shutdowns: nat,
    worker: Option<Thread>)

  /** A PoolRef. `taker` is the thread whose Login returned it. */
  datatype Ref = Ref(pool: PoolId, app: App, pin: Digest, taker: Thread, dropped: bool)

  datatype Owner = Main | OfThread(t: Thread) | OfHandle(h: HandleId) | Gone

  /** A token or session number: the pool it belongs to, and who has it (a history variable). */
  datatype Slot = Slot(pool: PoolId, owner: Owner)

  datatype Handle = Handle(pool: PoolId, id: nat, closed: bool)

  datatype Result =
    | LoggedIn(r: RefId)
    | LoginFailed
    | DropDone(clean: bool)  // Drop returned; clean means without an error
    | SessionDone

  datatype LoginAt =
    | Lookup                           // top of the loop, line 90
    | AwaitLive(p: PoolId)             // select of line 98
    | LoadInc(p: PoolId)               // line 264
    | CasInc(p: PoolId, v: uint32)     // line 268
    | AwaitDead(p: PoolId)             // select of line 112

  datatype WorkAt =
    | Opening                          // line 169
    | LoggingIn(id: nat)               // line 175
    | Unwinding(id: nat)               // line 178
    | RollingBack                      // line 161
    | RollingDead                      // line 164
    | Shutting                         // line 248, before the semaphore is closed
    | Draining                         // line 248, waiting for the outstanding tokens
    | LoggingOut(clean: bool)          // line 254
    | ClosingAll(clean: bool)          // line 255
    | Removing(clean: bool)            // line 236
    | Burying(clean: bool)             // line 241

  datatype DecAt = LoadDec | CasDec(v: uint32)

  datatype TokenAt =
    | Getting                          // line 192
    | Got                              // line 205
    | ClosingSession                   // line 218
    | Releasing                        // lines 200 and 217

  datatype Pc =
    | Idle
    | Login(c: Call, seen: set<PoolId>, at: LoginAt)   // seen: the pools earlier rounds found, a history variable
    | Work(app: App, p: PoolId, work: WorkAt)
    | Dec(app: App, p: PoolId, dec: DecAt)
    | Token(p: PoolId, id: nat, token: TokenAt)
    | Returned(result: Result)

  /** `open` are the sessions open on the token, `loggedIn` the slots whose token is logged in.
      panicked: a channel was closed twice. wrapped: a reference count passed 2^32-1. */
  datatype State = State(
    pools: seq<Pool>,
    cache: map<Key, PoolId>,
    prefs: seq<Ref>,
    slots: seq<Slot>,
    handles: seq<Handle>,
    open: set<nat>,
    loggedIn: set<Key>,
    pcs: map<Thread, Pc>,
    panicked: bool,
    wrapped: bool)

  datatype Event =
    | CallLogin(t: Thread, c: Call)
    | FindPool(t: Thread)
    | SeeLive(t: Thread)
    | SeeDead(t: Thread)
    | GiveUp(t: Thread)                // the context ends
    | LoadRefs(t: Thread)
    | SwapRefs(t: Thread)
    | OpenMain(t: Thread, ok: bool)
    | LoginMain(t: Thread, ok: bool)
    | CloseMain(t: Thread, ok: bool)
    | Remove(t: Thread)
    | Bury(t: Thread)
    | CallDrop(t: Thread, r: RefId)
    | ShutSemaphore(t: Thread)
    | Drained(t: Thread)
    | Logout(t: Thread, ok: bool)
    | CloseAll(t: Thread, ok: bool)
    | CallGet(t: Thread, r: RefId)
    | TakeToken(t: Thread)
    | OpenTemp(t: Thread, ok: bool)
    | CallCloseHandle(t: Thread, h: HandleId)
    | CloseTemp(t: Thread, ok: bool)
    | ReleaseToken(t: Thread)
    | Finish(t: Thread)                // the caller takes the result

  function Init(): State {
    State([], map[], [], [], [], {}, {}, map[], false, false)
  }

  function PcOf(s: State, t: Thread): Pc {
    if t in s.pcs then s.pcs[t] else Idle
  }

  /** The pool thread t is concerned with. */
  function Subject(pc: Pc): Option<PoolId> {
    match pc
    case Login(_, _, at) => if at.Lookup? then None else Some(at.p)
    case Work(_, p, _) => Some(p)
    case Dec(_, p, _) => Some(p)
    case Token(p, _, _) => Some(p)
    case _ => None
  }

  predicate Known(s: State, t: Thread) {
    Subject(PcOf(s, t)).Some? && Subject(PcOf(s, t)).value < |s.pools|
  }

  function PoolOf(s: State, t: Thread): Pool
    requires Known(s, t)
  {
    s.pools[Subject(PcOf(s, t)).value]
  }

  predicate Enabled(s: State, e: Event) {
    var t := e.t;
    var pc := PcOf(s, t);
    !s.panicked &&
    match e
    case CallLogin(_, _) => pc.Idle?
    case FindPool(_) => pc.Login? && pc.at.Lookup?
    case SeeLive(_) => pc.Login? && pc.at.AwaitLive? && Known(s, t) && PoolOf(s, t).live
    case SeeDead(_) => pc.Login? && (pc.at.AwaitLive? || pc.at.AwaitDead?) && Known(s, t) && PoolOf(s, t).dead
    case GiveUp(_) =>
      (pc.Login? && (pc.at.AwaitLive? || pc.at.AwaitDead?)) ||
      (pc.Work? && pc.work.Draining? && Known(s, t)) ||
      (pc.Token? && pc.token.Getting? && Known(s, t) && BC.Can(PoolOf(s, t).sema, BC.Fail(pc.id)))
    case LoadRefs(_) => Known(s, t) && ((pc.Login? && pc.at.LoadInc?) || (pc.Dec? && pc.dec.LoadDec?))
    case SwapRefs(_) => Known(s, t) && ((pc.Login? && pc.at.CasInc?) || (pc.Dec? && pc.dec.CasDec?))
    case OpenMain(_, _) => pc.Work? && pc.work.Opening? && Known(s, t)
    case LoginMain(_, ok) =>
      pc.Work? && pc.work.LoggingIn? && Known(s, t) && (ok ==> PoolOf(s, t).key !in s.loggedIn)
    case CloseMain(_, _) => pc.Work? && pc.work.Unwinding? && Known(s, t)
    case Remove(_) => pc.Work? && (pc.work.RollingBack? || pc.work.Removing?) && Known(s, t)
    case Bury(_) => pc.Work? && (pc.work.RollingDead? || pc.work.Burying?) && Known(s, t)
    case CallDrop(_, r) => pc.Idle? && r < |s.prefs|
    case ShutSemaphore(_) => pc.Work? && pc.work.Shutting? && Known(s, t) && BC.Can(PoolOf(s, t).sema, BC.Shut)
    case Drained(_) => pc.Work? && pc.work.Draining? && Known(s, t) && BC.Can(PoolOf(s, t).sema, BC.Drain)
    case Logout(_, _) => pc.Work? && pc.work.LoggingOut? && Known(s, t)
    case CloseAll(_, _) => pc.Work? && pc.work.ClosingAll? && Known(s, t)
    case CallGet(_, r) => pc.Idle? && r < |s.prefs| && s.prefs[r].pool < |s.pools|
    case TakeToken(_) => pc.Token? && pc.token.Getting? && Known(s, t) && BC.Can(PoolOf(s, t).sema, BC.Take(pc.id))
    case OpenTemp(_, _) => pc.Token? && pc.token.Got? && Known(s, t)
    case CallCloseHandle(_, h) => pc.Idle? && h < |s.handles| && s.handles[h].pool < |s.pools|
    case CloseTemp(_, _) => pc.Token? && pc.token.ClosingSession? && Known(s, t)
    case ReleaseToken(_) => pc.Token? && pc.token.Releasing? && Known(s, t) && BC.Can(PoolOf(s, t).sema, BC.Give(pc.id))
    case Finish(_) => pc.Returned?
  }

  // ---- Effects -------------------------------------------------------------------------------

  function Goto(s: State, t: Thread, pc: Pc): State {
    s.(pcs := s.pcs[t := pc])
  }

  function SetPool(s: State, p: PoolId, pool: Pool): State
    requires p < |s.pools|
  {
    s.(pools := s.pools[p := pool])
  }

  function SetSema(s: State, p: PoolId, a: BC.Action): State
    requires p < |s.pools| && BC.Can(s.pools[p].sema, a)
  {
    SetPool(s, p, s.pools[p].(sema := BC.Do(s.pools[p].sema, a)))
  }

  function SetOwner(s: State, id: nat, owner: Owner): State {
    if id < |s.slots| then s.(slots := s.slots[id := s.slots[id].(owner := owner)]) else s
  }

  function SessionKey(s: State, id: nat): Option<Key> {
    if id < |s.slots| && s.slots[id].pool < |s.pools| then Some(s.pools[s.slots[id].pool].key) else None
  }

  function SessionsOf(s: State, key: Key): set<nat> {
    set id | id in s.open && SessionKey(s, id) == Some(key)
  }

  /** CloseSession; a token is logged out when its last session is closed. */
  function CloseSession(s: State, key: Key, id: nat, ok: bool): (r: State)
    ensures r == s.(open := r.open, loggedIn := r.loggedIn)
  {
    if !ok then s
    else if SessionsOf(s, key) <= {id} then s.(open := s.open - {id}, loggedIn := s.loggedIn - {key})
    else s.(open := s.open - {id})
  }

  /** Lines 93 and 124 to 153: insert a new pool, still holding cacheLock. */
  function Insert(s: State, t: Thread, c: Call): State {
    var max := MaxSessions(c.info);
    if max < 2 then Goto(s, t, Returned(LoginFailed))
    else
      var pool := Pool(c.key, c.mod, c.pin, max, 1, false, false, None,
                       BC.Counter(max - 1, {}, {}, false, false), false, false, false, 0, Some(t));
      Goto(s.(pools := s.pools + [pool], cache := s.cache[c.key := |s.pools|]), t, Work(c.app, |s.pools|, Opening))
  }

  /** Login returns a new reference to pool p. */
  function Share(s: State, t: Thread, p: PoolId, app: App, pin: Digest): State {
    Goto(s.(prefs := s.prefs + [Ref(p, app, pin, t, false)]), t, Returned(LoggedIn(|s.prefs|)))
  }

  function Load(s: State, t: Thread): State
    requires Enabled(s, LoadRefs(t))
  {
    var v := PoolOf(s, t).refs;
    match PcOf(s, t)
    case Login(c, seen, at) => Goto(s, t, Login(c, seen, if v == 0 then AwaitDead(at.p) else CasInc(at.p, v)))
    case Dec(app, p, _) => Goto(s, t, if v == 0 then Returned(DropDone(true)) else Dec(app, p, CasDec(v)))
    case _ => s
  }

  function Swap(s: State, t: Thread): State
    requires Enabled(s, SwapRefs(t))
  {
    var pool := PoolOf(s, t);
    match PcOf(s, t)
    case Login(c, seen, at) =>
      if pool.refs != at.v then Goto(s, t, Login(c, seen, LoadInc(at.p)))
      else if pool.refs == UINT32_MOD - 1 then s.(wrapped := true)
      else Share(SetPool(s, at.p, pool.(refs := pool.refs + 1)), t, at.p, c.app, c.pin)
    case Dec(app, p, dec) =>
      if pool.refs != dec.v then Goto(s, t, Dec(app, p, LoadDec))
      else if pool.refs > 1 then Goto(SetPool(s, p, pool.(refs := pool.refs - 1)), t, Returned(DropDone(true)))
      else Goto(SetPool(s, p, pool.(refs := 0, shutdowns := pool.shutdowns + 1, worker := Some(t))),
                t, Work(app, p, Shutting))
    case _ => s
  }

  function WorkOn(s: State, e: Event): State
    requires Enabled(s, e) && PcOf(s, e.t).Work?
  {
    var t := e.t;
    var Work(app, p, work) := PcOf(s, t);
    var pool := s.pools[p];
    match e
    case OpenMain(_, ok) =>
      if ok then
        var id := |s.slots|;
        Goto(SetPool(s.(slots := s.slots + [Slot(p, Main)], open := s.open + {id}), p, pool.(main := Some(id))),
             t, Work(app, p, LoggingIn(id)))
      else Goto(s, t, Work(app, p, RollingBack))
    case LoginMain(_, ok) =>
      if ok then
        var s' := SetPool(s, p, pool.(live := true, worker := None));
        Share(s'.(loggedIn := s.loggedIn + {pool.key}, panicked := s.panicked || pool.live), t, p, app, pool.pin)
      else Goto(s, t, Work(app, p, Unwinding(work.id)))
    case CloseMain(_, ok) =>
      var s' := SetOwner(CloseSession(s, pool.key, work.id, ok), work.id, Gone);
      Goto(SetPool(s', p, pool.(main := None)), t, Work(app, p, RollingBack))
    case Remove(_) =>
      var next := if work.RollingBack? then RollingDead else Burying(work.clean);
      Goto(SetPool(s.(cache := s.cache - {pool.key}), p, pool.(removed := true)), t, Work(app, p, next))
    case Bury(_) =>
      var result := if work.RollingDead? then LoginFailed else DropDone(work.clean);
      Goto(SetPool(s.(panicked := s.panicked || pool.dead), p, pool.(dead := true, worker := None)), t, Returned(result))
    case ShutSemaphore(_) => Goto(SetSema(s, p, BC.Shut), t, Work(app, p, Draining))
    case Drained(_) => Goto(SetSema(s, p, BC.Drain), t, Work(app, p, LoggingOut(true)))
    case GiveUp(_) => Goto(s, t, Work(app, p, LoggingOut(false)))
    case Logout(_, ok) =>
      var s' := if ok then s.(loggedIn := s.loggedIn - {pool.key}) else s;
      Goto(SetPool(s', p, pool.(loggedOut := true)), t, Work(app, p, ClosingAll(work.clean && ok)))
    case CloseAll(_, ok) =>
      var s' := if ok then s.(open := s.open - SessionsOf(s, pool.key), loggedIn := s.loggedIn - {pool.key}) else s;
      Goto(SetPool(s', p, pool.(emptied := true)), t, Work(app, p, Removing(work.clean && ok)))
    case _ => s
  }

  function UseToken(s: State, e: Event): State
    requires Enabled(s, e) && PcOf(s, e.t).Token?
  {
    var t := e.t;
    var Token(p, id, _) := PcOf(s, t);
    match e
    case GiveUp(_) => Goto(SetOwner(SetSema(s, p, BC.Fail(id)), id, Gone), t, Returned(SessionDone))
    case TakeToken(_) => Goto(SetSema(s, p, BC.Take(id)), t, Token(p, id, Got))
    case OpenTemp(_, ok) =>
      if ok then
        var s' := SetOwner(s.(open := s.open + {id}, handles := s.handles + [Handle(p, id, false)]), id, OfHandle(|s.handles|));
        Goto(s', t, Returned(SessionDone))
      else Goto(s, t, Token(p, id, Releasing))
    case CloseTemp(_, ok) => Goto(CloseSession(s, s.pools[p].key, id, ok), t, Token(p, id, Releasing))
    case ReleaseToken(_) => Goto(SetOwner(SetSema(s, p, BC.Give(id)), id, Gone), t, Returned(SessionDone))
    case _ => s
  }

  function Apply(s: State, e: Event): State
    requires Enabled(s, e)
  {
    var t := e.t;
    match e
    case CallLogin(_, c) => Goto(s, t, Login(c, {}, Lookup))
    case FindPool(_) =>
      var Login(c, seen, _) := PcOf(s, t);
      if c.key in s.cache then Goto(s, t, Login(c, seen, AwaitLive(s.cache[c.key]))) else Insert(s, t, c)
    case SeeLive(_) =>
      var Login(c, seen, at) := PcOf(s, t);
      if c.pin != PoolOf(s, t).pin then Goto(s, t, Returned(LoginFailed))
      else Goto(s, t, Login(c, seen, LoadInc(at.p)))
    case SeeDead(_) =>
      var Login(c, seen, at) := PcOf(s, t);
      Goto(s, t, Login(c, seen + {at.p}, Lookup))
    case GiveUp(_) =>
      if PcOf(s, t).Login? then Goto(s, t, Returned(LoginFailed))
      else if PcOf(s, t).Work? then WorkOn(s, e)
      else UseToken(s, e)
    case LoadRefs(_) => Load(s, t)
    case SwapRefs(_) => Swap(s, t)
    case CallDrop(_, r) =>
      var ref := s.prefs[r];
      if ref.dropped then Goto(s, t, Returned(DropDone(false)))
      else Goto(s.(prefs := s.prefs[r := ref.(dropped := true)]), t, Dec(ref.app, ref.pool, LoadDec))
    case CallGet(_, r) =>
      var p, id := s.prefs[r].pool, |s.slots|;
      if BC.Can(s.pools[p].sema, BC.Begin(id)) then
        Goto(SetSema(s.(slots := s.slots + [Slot(p, OfThread(t))]), p, BC.Begin(id)), t, Token(p, id, Getting))
      else Goto(s, t, Returned(SessionDone))
    case CallCloseHandle(_, h) =>
      var handle := s.handles[h];
      if handle.closed then Goto(s, t, Returned(SessionDone))
      else Goto(SetOwner(s.(handles := s.handles[h := handle.(closed := true)]), handle.id, OfThread(t)),
                t, Token(handle.pool, handle.id, ClosingSession))
    case Finish(_) => Goto(s, t, Idle)
    case _ => if PcOf(s, t).Work? then WorkOn(s, e) else if PcOf(s, t).Token? then UseToken(s, e) else s
  }

  function Exec(s: State, es: seq<Event>): Option<State>
    decreases |es|
  {
    if es == [] then Some(s)
    else if Enabled(s, es[0]) then Exec(Apply(s, es[0]), es[1..])
    else None
  }
}
