/** Session pools over the real semaphore. Each pool of PoolProtocol gets a state of SemaphoreProtocol,
    and every step that concerns a semaphore is an event of that semaphore: Get begins with an Acquire
    by a new caller, a worker's drain with a Close, a token comes back with a Release, and what the
    threads in between see follows from what their callers reach.

    The counters inside `p` are history: whether an event is enabled is decided by the program counters
    and the semaphores alone. As long as no spurious release happens, every run is a run of
    PoolProtocol whose counters are the views of the semaphores. */
module PoolSemaphores {
  import opened Common
  import BC = BoundedCounter
  import P = PoolProtocol
  import PI = PoolInvariant
  import PR = PoolRuns
  import PS = PoolSteps
  import PF = PoolSafety
  import S = SemaphoreProtocol
  import SR = SemaphoreRefinement
  import SS = SemaphoreSafety

  type PoolId = P.PoolId
  type Thread = P.Thread

  datatype State = State(p: P.State, semas: seq<S.State>)

  datatype Event =
    | Outside(pe: P.Event)                 // a step that does not concern a semaphore
    | Get(t: Thread, r: P.RefId)
    | Close(t: Thread)
    | Release(t: Thread)
    | Inside(q: PoolId, se: S.Event)       // a step of a caller inside Acquire or Close, or the end of a context

  const EMPTY := State(P.Init(), [])

  predicate Plain(s: P.State, e: P.Event) {
    !e.CallGet? && !e.TakeToken? && !e.ReleaseToken? && !e.ShutSemaphore? && !e.Drained? &&
    (e.GiveUp? ==> P.PcOf(s, e.t).Login?)
  }

  /** Steps of callers that are inside a call. */
  predicate Inner(e: S.Event) {
    !e.CallAcquire? && !e.CallClose? && !e.CallRelease? && !e.Renew?
  }

  predicate HasSema(s: State, q: PoolId) {
    q < |s.p.pools| && q < |s.semas|
  }

  /** Sessions are numbered, and the caller of a token has the number of its session. Close is called by
      the number of the pool's own session. */
  predicate Enabled(s: State, e: Event) {
    !s.p.panicked &&
    match e
    case Outside(pe) => Plain(s.p, pe) && P.Enabled(s.p, pe)
    case Get(t, r) =>
      P.PcOf(s.p, t).Idle? && r < |s.p.prefs| && HasSema(s, s.p.prefs[r].pool) &&
      S.Enabled(s.semas[s.p.prefs[r].pool], S.CallAcquire(|s.p.slots|))
    case Close(t) =>
      var pc := P.PcOf(s.p, t);
      pc.Work? && pc.work.Shutting? && HasSema(s, pc.p) && s.p.pools[pc.p].main.Some? &&
      S.Enabled(s.semas[pc.p], S.CallClose(s.p.pools[pc.p].main.value))
    case Release(t) =>
      var pc := P.PcOf(s.p, t);
      pc.Token? && pc.token.Releasing? && HasSema(s, pc.p) && S.Enabled(s.semas[pc.p], S.CallRelease(pc.id))
    case Inside(q, se) => HasSema(s, q) && Inner(se) && S.Enabled(s.semas[q], se)
  }

  /** The thread waits for the token of this number. */
  predicate Waits(s: P.State, t: Thread, q: PoolId, id: nat) {
    P.PcOf(s, t) == P.Token(q, id, P.Getting)
  }

  ghost function WaiterOf(s: P.State, q: PoolId, id: nat): Thread {
    if exists t: Thread :: Waits(s, t, q, id) then
      var t: Thread :| Waits(s, t, q, id); t
    else 0
  }

  function WorkerOf(s: P.State, q: PoolId): Thread {
    if q < |s.pools| && s.pools[q].worker.Some? then s.pools[q].worker.value else 0
  }

  predicate Closes(pc: S.Pc) {
    pc.Sending? || ((S.InQueue(pc) || pc.Woken? || pc.GivingBack?) && pc.closer)
  }

  /** What the threads of the pool do when a caller steps: one whose Acquire or Close returns goes on. */
  ghost function Outcome(s: State, q: PoolId, se: S.Event): seq<P.Event>
    requires HasSema(s, q) && S.Enabled(s.semas[q], se)
  {
    var sema := s.semas[q];
    var a := SR.ActionOf(sema, se);
    if a.Take? then [P.TakeToken(WaiterOf(s.p, q, a.t))]
    else if a.Fail? then [P.GiveUp(WaiterOf(s.p, q, a.t))]
    else if a.Drain? then [P.Drained(WorkerOf(s.p, q))]
    else if Closes(S.PcOf(sema, se.t)) && S.PcOf(S.Apply(sema, se), se.t).Idle? then [P.GiveUp(WorkerOf(s.p, q))]
    else []
  }

  /** The steps of the pools an event amounts to. */
  ghost function Moves(s: State, e: Event): seq<P.Event>
    requires Enabled(s, e)
  {
    match e
    case Outside(pe) => [pe]
    case Get(t, r) =>
      var sema, id := s.semas[s.p.prefs[r].pool], |s.p.slots|;
      var pc := S.PcOf(S.Apply(sema, S.CallAcquire(id)), id);
      if pc.Holding? then [P.CallGet(t, r), P.TakeToken(t)]
      else if pc.Waiting? || sema.f.closed then [P.CallGet(t, r)]
      else [P.CallGet(t, r), P.GiveUp(t)]
    case Close(t) => [P.ShutSemaphore(t)]
    case Release(t) => [P.ReleaseToken(t)]
    case Inside(q, se) => Outcome(s, q, se)
  }

  /** The semaphore an event steps, and its event there. */
  function Stepped(s: State, e: Event): Option<(PoolId, S.Event)>
    requires Enabled(s, e)
  {
    match e
    case Outside(_) => None
    case Get(_, r) => Some((s.p.prefs[r].pool, S.CallAcquire(|s.p.slots|)))
    case Close(t) => Some((P.PcOf(s.p, t).p, S.CallClose(s.p.pools[P.PcOf(s.p, t).p].main.value)))
    case Release(t) => Some((P.PcOf(s.p, t).p, S.CallRelease(P.PcOf(s.p, t).id)))
    case Inside(q, se) => Some((q, se))
  }

  /** A new pool comes with a new semaphore. */
  function Extended(semas: seq<S.State>, pools: seq<P.Pool>): seq<S.State> {
    if |pools| == |semas| + 1 && pools[|semas|].max >= 1 then semas + [S.Init(pools[|semas|].max - 1)] else semas
  }

  ghost function Apply(s: State, e: Event): State
    requires Enabled(s, e)
  {
    var r := P.Exec(s.p, Moves(s, e));
    var p' := if r.Some? then r.value else s.p;
    match Stepped(s, e)
    case None => State(p', Extended(s.semas, p'.pools))
    case Some((q, se)) => State(p', s.semas[q := S.Apply(s.semas[q], se)])
  }

  ghost function Exec(s: State, es: seq<Event>): Option<State>
    decreases |es|
  {
    if es == [] then Some(s)
    else if Enabled(s, es[0]) then Exec(Apply(s, es[0]), es[1..])
    else None
  }

  // ---- The invariant --------------------------------------------------------------------------------

  predicate Draining(pool: P.Pool, pcs: map<Thread, P.Pc>) {
    PI.WorkOf(pool, pcs) == Some(P.Draining)
  }

  /** The worker drains exactly while its caller is inside Close. */
  ghost predicate CloserOk(pool: P.Pool, draining: bool, sema: S.State) {
    if pool.sema.closed then
      pool.main.Some? && sema.closer == pool.main &&
      var pc := S.PcOf(sema, pool.main.value);
      if draining then Closes(pc) else pc.Idle? || pc.Drained?
    else sema.closer.None? && !draining
  }

  ghost predicate CallersOk(s: P.State, q: PoolId)
    requires q < |s.pools|
  {
    forall id :: id in s.pools[q].sema.calls ==> exists t: Thread :: Waits(s, t, q, id)
  }

  ghost predicate SemaOk(sema: S.State, pool: P.Pool) {
    S.Valid(sema) && sema.spurious == 0 && SR.View(sema) == pool.sema
  }

  ghost predicate PoolOk(s: State, q: PoolId)
    requires HasSema(s, q)
  {
    && SemaOk(s.semas[q], s.p.pools[q])
    && CallersOk(s.p, q)
    && CloserOk(s.p.pools[q], Draining(s.p.pools[q], s.p.pcs), s.semas[q])
  }

  ghost predicate Sound(s: State) {
    && !s.p.wrapped && PI.Valid(s.p)
    && |s.semas| == |s.p.pools|
    && forall q :: 0 <= q < |s.semas| ==> PoolOk(s, q)
  }

  /** No reference count left its range and no spurious release happened. */
  ghost predicate Calm(s: State) {
    !s.p.wrapped && forall q :: 0 <= q < |s.semas| ==> s.semas[q].spurious == 0
  }

  // ---- Steps that concern no semaphore -----------------------------------------------------------------

  /** Neither before nor after the step does the thread wait for a token or a drain. */
  ghost predicate Unwaiting(s: P.State, s': P.State, t: Thread) {
    && s'.pcs == s.pcs[t := P.PcOf(s', t)]
    && !(P.PcOf(s, t).Work? && P.PcOf(s, t).work.Draining?) && !(P.PcOf(s', t).Work? && P.PcOf(s', t).work.Draining?)
    && !(P.PcOf(s, t).Token? && P.PcOf(s, t).token.Getting?)
  }

  lemma WorkUnwaiting(s: P.State, e: P.Event)
    requires P.Enabled(s, e) && Plain(s, e) && P.PcOf(s, e.t).Work?
    ensures Unwaiting(s, P.Apply(s, e), e.t)
  {
  }

  lemma TokenUnwaiting(s: P.State, e: P.Event)
    requires P.Enabled(s, e) && Plain(s, e) && P.PcOf(s, e.t).Token?
    ensures Unwaiting(s, P.Apply(s, e), e.t)
  {
  }

  lemma CallerUnwaiting(s: P.State, e: P.Event)
    requires P.Enabled(s, e) && Plain(s, e) && !P.PcOf(s, e.t).Work? && !P.PcOf(s, e.t).Token? && !P.Apply(s, e).wrapped
    ensures Unwaiting(s, P.Apply(s, e), e.t)
  {
  }

  lemma PlainUnwaiting(s: P.State, e: P.Event)
    requires P.Enabled(s, e) && Plain(s, e) && !P.Apply(s, e).wrapped
    ensures Unwaiting(s, P.Apply(s, e), e.t)
  {
    if P.PcOf(s, e.t).Work? {
      WorkUnwaiting(s, e);
    } else if P.PcOf(s, e.t).Token? {
      TokenUnwaiting(s, e);
    } else {
      CallerUnwaiting(s, e);
    }
  }

  ghost predicate KeepsSemas(before: seq<P.Pool>, after: seq<P.Pool>, but: Option<PoolId>) {
    && |before| <= |after| <= |before| + 1
    && (forall q :: 0 <= q < |before| ==> after[q].sema == before[q].sema && (but == Some(q) || after[q].main == before[q].main))
    && (|before| < |after| ==> NewPool(after[|before|]))
  }

  predicate NewPool(pool: P.Pool) {
    pool.max >= 2 && pool.sema == BC.Counter(pool.max - 1, {}, {}, false, false)
  }

  lemma SetUpSemas(s: P.State, e: P.Event)
    requires P.Enabled(s, e) && Plain(s, e) && P.PcOf(s, e.t).Work? && PS.ForSetUp(e)
    ensures KeepsSemas(s.pools, P.Apply(s, e).pools, if e.OpenMain? || e.CloseMain? then Some(P.PcOf(s, e.t).p) else None)
  {
  }

  lemma ShutDownSemas(s: P.State, e: P.Event)
    requires P.Enabled(s, e) && Plain(s, e) && P.PcOf(s, e.t).Work? && !PS.ForSetUp(e)
    ensures KeepsSemas(s.pools, P.Apply(s, e).pools, None)
  {
  }

  lemma TokenSemas(s: P.State, e: P.Event)
    requires P.Enabled(s, e) && Plain(s, e) && P.PcOf(s, e.t).Token?
    ensures KeepsSemas(s.pools, P.Apply(s, e).pools, None)
  {
  }

  lemma LoginSemas(s: P.State, e: P.Event)
    requires P.Enabled(s, e) && P.PcOf(s, e.t).Login?
    ensures KeepsSemas(s.pools, P.Apply(s, e).pools, None)
  {
  }

  lemma DropSemas(s: P.State, e: P.Event)
    requires P.Enabled(s, e) && P.PcOf(s, e.t).Dec?
    ensures KeepsSemas(s.pools, P.Apply(s, e).pools, None)
  {
    DropTouches(s, e);
  }

  lemma DropTouches(s: P.State, e: P.Event)
    requires P.Enabled(s, e) && P.PcOf(s, e.t).Dec?
    ensures var p, pools := P.PcOf(s, e.t).p, P.Apply(s, e).pools;
            |pools| == |s.pools| && pools == s.pools[p := pools[p]] &&
            pools[p].sema == s.pools[p].sema && pools[p].main == s.pools[p].main
  {
  }

  lemma IdleSemas(s: P.State, e: P.Event)
    requires P.Enabled(s, e) && Plain(s, e) && (P.PcOf(s, e.t).Idle? || P.PcOf(s, e.t).Returned?)
    ensures KeepsSemas(s.pools, P.Apply(s, e).pools, None)
  {
  }

  /** The pool whose own session changes is not closed. */
  lemma MainOpen(s: P.State, e: P.Event)
    requires PI.Registry(s) && P.Enabled(s, e) && (e.OpenMain? || e.CloseMain?)
    ensures P.Known(s, e.t) && !P.PoolOf(s, e.t).sema.closed
  {
    PS.WorkerStage(s, e.t);
  }

  /** What a plain step keeps of pool q. */
  ghost predicate KeepsPool(s: P.State, s': P.State, q: PoolId) {
    && q < |s.pools| && q < |s'.pools|
    && s'.pools[q].sema == s.pools[q].sema
    && (s.pools[q].sema.closed ==> s'.pools[q].main == s.pools[q].main)
    && Draining(s'.pools[q], s'.pcs) == Draining(s.pools[q], s.pcs)
    && (forall t: Thread, id :: Waits(s, t, q, id) ==> Waits(s', t, q, id))
  }

  lemma PlainSemas(s: P.State, e: P.Event)
    requires PI.Registry(s) && P.Enabled(s, e) && Plain(s, e)
    ensures |s.pools| <= |P.Apply(s, e).pools| <= |s.pools| + 1
    ensures |s.pools| < |P.Apply(s, e).pools| ==> NewPool(P.Apply(s, e).pools[|s.pools|])
    ensures forall q :: 0 <= q < |s.pools| ==>
      P.Apply(s, e).pools[q].sema == s.pools[q].sema &&
      (s.pools[q].sema.closed ==> P.Apply(s, e).pools[q].main == s.pools[q].main)
  {
    match P.PcOf(s, e.t)
    case Work(_, _, _) =>
      if PS.ForSetUp(e) {
        SetUpSemas(s, e);
        if e.OpenMain? || e.CloseMain? {
          MainOpen(s, e);
        }
      } else {
        ShutDownSemas(s, e);
      }
    case Token(_, _, _) => TokenSemas(s, e);
    case Login(_, _, _) => LoginSemas(s, e);
    case Dec(_, _, _) => DropSemas(s, e);
    case _ => IdleSemas(s, e);
  }

  lemma DrainingSame(s: P.State, s': P.State, t: Thread, q: PoolId)
    requires PI.Workers(s.pools, s.pcs) && PI.Workers(s'.pools, s'.pcs) && Unwaiting(s, s', t)
    requires q < |s.pools| && q < |s'.pools|
    ensures Draining(s'.pools[q], s'.pcs) == Draining(s.pools[q], s.pcs)
  {
  }

  lemma NewUndrained(s: P.State, s': P.State, t: Thread, q: PoolId)
    requires PI.Workers(s.pools, s.pcs) && PI.Workers(s'.pools, s'.pcs) && Unwaiting(s, s', t)
    requires |s.pools| <= q < |s'.pools|
    ensures !Draining(s'.pools[q], s'.pcs)
  {
  }

  lemma PoolOkKept(s: State, p': P.State, q: PoolId, semas: seq<S.State>)
    requires HasSema(s, q) && PoolOk(s, q) && KeepsPool(s.p, p', q) && q < |semas| && semas[q] == s.semas[q]
    ensures PoolOk(State(p', semas), q)
  {
    forall id | id in p'.pools[q].sema.calls ensures exists t: Thread :: Waits(p', t, q, id) {
      var t: Thread :| Waits(s.p, t, q, id);
      assert Waits(p', t, q, id);
    }
  }

  lemma NewPoolOk(s: State, p': P.State, q: PoolId)
    requires q == |s.semas| && q < |p'.pools| && NewPool(p'.pools[q]) && !Draining(p'.pools[q], p'.pcs)
    ensures PoolOk(State(p', s.semas + [S.Init(p'.pools[q].max - 1)]), q)
  {
    var sema := S.Init(p'.pools[q].max - 1);
    assert S.Valid(sema);
    assert SR.View(sema) == p'.pools[q].sema;
  }

  /** Pools of s, and perhaps a new one, after a plain step. */
  ghost predicate Keeps(s: P.State, s': P.State, t: Thread) {
    && Unwaiting(s, s', t)
    && |s.pools| <= |s'.pools| <= |s.pools| + 1
    && (|s.pools| < |s'.pools| ==> NewPool(s'.pools[|s.pools|]))
    && forall q :: 0 <= q < |s.pools| ==>
         s'.pools[q].sema == s.pools[q].sema && (s.pools[q].sema.closed ==> s'.pools[q].main == s.pools[q].main)
  }

  lemma PlainKeeps(s: P.State, e: P.Event)
    requires PI.Registry(s) && P.Enabled(s, e) && Plain(s, e) && !P.Apply(s, e).wrapped
    ensures Keeps(s, P.Apply(s, e), e.t)
  {
    PlainSemas(s, e);
    PlainUnwaiting(s, e);
  }

  lemma KeptPoolOk(s: State, p': P.State, t: Thread, q: PoolId)
    requires |s.semas| == |s.p.pools| && Keeps(s.p, p', t) && q < |p'.pools|
    requires PI.Workers(s.p.pools, s.p.pcs) && PI.Workers(p'.pools, p'.pcs)
    requires q < |s.semas| ==> PoolOk(s, q)
    ensures HasSema(State(p', Extended(s.semas, p'.pools)), q) && PoolOk(State(p', Extended(s.semas, p'.pools)), q)
  {
    if q < |s.semas| {
      DrainingSame(s.p, p', t, q);
      PoolOkKept(s, p', q, Extended(s.semas, p'.pools));
    } else {
      NewUndrained(s.p, p', t, q);
      NewPoolOk(s, p', q);
    }
  }

  lemma OutsideSound(s: State, e: Event)
    requires Sound(s) && Enabled(s, e) && e.Outside? && !Apply(s, e).p.wrapped
    ensures Sound(Apply(s, e)) && P.Exec(s.p, Moves(s, e)) == Some(Apply(s, e).p)
  {
    One(s.p, e.pe);
    PlainSound(s, e.pe);
  }

  lemma PlainSound(s: State, pe: P.Event)
    requires Sound(s) && P.Enabled(s.p, pe) && Plain(s.p, pe) && !P.Apply(s.p, pe).wrapped
    ensures Sound(State(P.Apply(s.p, pe), Extended(s.semas, P.Apply(s.p, pe).pools)))
  {
    var p' := P.Apply(s.p, pe);
    PS.StepValid(s.p, pe);
    PlainKeeps(s.p, pe);
    forall q: PoolId | q < |p'.pools|
      ensures HasSema(State(p', Extended(s.semas, p'.pools)), q) && PoolOk(State(p', Extended(s.semas, p'.pools)), q)
    {
      KeptPoolOk(s, p', pe.t, q);
    }
  }

  lemma One(s: P.State, e: P.Event)
    requires P.Enabled(s, e)
    ensures P.Exec(s, [e]) == Some(P.Apply(s, e))
  {
    assert P.Exec(s, [e]) == P.Exec(P.Apply(s, e), [e][1..]);
  }

  lemma Two(s: P.State, e: P.Event, f: P.Event)
    requires P.Enabled(s, e) && P.Enabled(P.Apply(s, e), f)
    ensures P.Exec(s, [e, f]) == Some(P.Apply(P.Apply(s, e), f))
  {
    One(P.Apply(s, e), f);
    assert [e, f][1..] == [f];
  }

  // ---- Steps of a semaphore ---------------------------------------------------------------------------------

  /** Thread t moves on, and the counter of pool q becomes c. */
  ghost predicate SemaMove(s: P.State, s': P.State, t: Thread, q: PoolId, c: BC.Counter) {
    && q < |s.pools| && s'.pools == s.pools[q := s.pools[q].(sema := c)]
    && s'.pcs == s.pcs[t := P.PcOf(s', t)]
    && At(P.PcOf(s, t), q) && At(P.PcOf(s', t), q)
  }

  /** If the thread waits for a token or works on a pool, it is pool q. */
  predicate At(pc: P.Pc, q: PoolId) {
    (pc.Token? ==> pc.p == q) && (pc.Work? ==> pc.p == q)
  }

  lemma OthersKept(s: State, p': P.State, t: Thread, q: PoolId, c: BC.Counter, r: PoolId, semas: seq<S.State>)
    requires SemaMove(s.p, p', t, q, c) && r != q && HasSema(s, r) && PoolOk(s, r)
    requires PI.Workers(s.p.pools, s.p.pcs) && |semas| == |s.semas| && semas[r] == s.semas[r]
    ensures PoolOk(State(p', semas), r)
  {
    forall id | id in p'.pools[r].sema.calls ensures exists u: Thread :: Waits(p', u, r, id) {
      var u: Thread :| Waits(s.p, u, r, id);
      assert Waits(p', u, r, id);
    }
  }

  /** The caller of pool q and its thread moved on together. */
  lemma SemaSound(s: State, p': P.State, t: Thread, q: PoolId, sema: S.State)
    requires Sound(s) && HasSema(s, q) && PI.Valid(p') && !p'.wrapped
    requires SemaMove(s.p, p', t, q, SR.View(sema))
    requires S.Valid(sema) && sema.spurious == 0
    requires CallersOk(p', q) && CloserOk(p'.pools[q], Draining(p'.pools[q], p'.pcs), sema)
    ensures Sound(State(p', s.semas[q := sema]))
  {
    var s' := State(p', s.semas[q := sema]);
    forall r | 0 <= r < |s'.semas| ensures PoolOk(s', r) {
      if r != q {
        OthersKept(s, p', t, q, SR.View(sema), r, s'.semas);
      }
    }
  }

  // What callers of the semaphore do.

  /** A step of a caller that is not inside Close leaves the closer where it is. */
  lemma CloserStays(sema: S.State, se: S.Event)
    requires S.Valid(sema) && S.Enabled(sema, se) && !se.CallClose? && !Closes(S.PcOf(sema, se.t))
    requires sema.closer == Some(se.t) ==> Inner(se) && (S.PcOf(sema, se.t).Idle? || S.PcOf(sema, se.t).Drained?)
    ensures var sema' := S.Apply(sema, se);
            sema'.closer == sema.closer &&
            (sema.closer.Some? ==> S.PcOf(sema', sema.closer.value) == S.PcOf(sema, sema.closer.value))
  {
  }

  /** Such a step begins, ends or leaves alone its own call. */
  lemma OtherStep(sema: S.State, se: S.Event)
    requires S.Valid(sema) && S.Enabled(sema, se) && Inner(se) && !Closes(S.PcOf(sema, se.t))
    ensures var a := SR.ActionOf(sema, se);
            a.Stutter? || ((a == BC.Take(se.t) || a == BC.Fail(se.t)) && se.t in SR.View(sema).calls)
  {
  }

  /** A step inside Close drains, gives up or stays inside. */
  lemma ClosingStep(sema: S.State, se: S.Event)
    requires S.Valid(sema) && S.Enabled(sema, se) && Inner(se) && Closes(S.PcOf(sema, se.t))
    ensures sema.closer == Some(se.t) && SR.View(sema).closed && S.Apply(sema, se).closer == sema.closer
    ensures var a, pc := SR.ActionOf(sema, se), S.PcOf(S.Apply(sema, se), se.t);
            if pc.Drained? then a.Drain? else a.Stutter? && (pc.Idle? || Closes(pc))
  {
  }

  /** What a semaphore event keeps, and what it is for the counter. */
  lemma SemaStep(sema: S.State, se: S.Event)
    requires S.Valid(sema) && S.Enabled(sema, se) && S.Apply(sema, se).spurious == 0
    ensures S.Valid(S.Apply(sema, se)) && BC.Can(SR.View(sema), SR.ActionOf(sema, se))
    ensures SR.View(S.Apply(sema, se)) == BC.Do(SR.View(sema), SR.ActionOf(sema, se))
  {
    SS.StepValid(sema, se);
    SR.StepRefines(sema, se);
  }

  // What threads of the pool do.

  /** The callers other than id still have their threads. */
  lemma CallersKept(s: P.State, p': P.State, t: Thread, q: PoolId, c: BC.Counter, id: nat)
    requires q < |s.pools| && CallersOk(s, q) && SemaMove(s, p', t, q, c)
    requires P.PcOf(s, t).Token? && P.PcOf(s, t).token.Getting? ==> P.PcOf(s, t).id == id
    requires forall i :: i in c.calls && i != id ==> i in s.pools[q].sema.calls
    requires id in c.calls ==> Waits(p', t, q, id)
    ensures CallersOk(p', q)
  {
    forall i | i in c.calls ensures exists u: Thread :: Waits(p', u, q, i) {
      if i == id {
        assert Waits(p', t, q, id);
      } else {
        var u: Thread :| Waits(s, u, q, i);
        assert Waits(p', u, q, i);
      }
    }
  }

  /** A thread that is no worker moves on: the drain goes on as before. */
  lemma DrainingKept(s: P.State, p': P.State, t: Thread, q: PoolId, c: BC.Counter)
    requires SemaMove(s, p', t, q, c) && !P.PcOf(s, t).Work? && !P.PcOf(p', t).Work? && PI.Workers(s.pools, s.pcs)
    ensures Draining(p'.pools[q], p'.pcs) == Draining(s.pools[q], s.pcs)
  {
  }

  // Get.

  lemma GetRefused(s: P.State, t: Thread, r: P.RefId)
    requires P.Enabled(s, P.CallGet(t, r)) && s.pools[s.prefs[r].pool].sema.closed
    ensures var q, p' := s.prefs[r].pool, P.Apply(s, P.CallGet(t, r));
            SemaMove(s, p', t, q, s.pools[q].sema) && p'.wrapped == s.wrapped && P.PcOf(p', t) == P.Returned(P.SessionDone)
  {
  }

  lemma GetBegins(s: P.State, t: Thread, r: P.RefId)
    requires P.Enabled(s, P.CallGet(t, r)) && BC.Can(s.pools[s.prefs[r].pool].sema, BC.Begin(|s.slots|))
    ensures var q, id, p' := s.prefs[r].pool, |s.slots|, P.Apply(s, P.CallGet(t, r));
            SemaMove(s, p', t, q, BC.Do(s.pools[q].sema, BC.Begin(id))) && p'.wrapped == s.wrapped && Waits(p', t, q, id) &&
            p'.panicked == s.panicked
  {
  }

  lemma Takes(s: P.State, t: Thread, q: PoolId, id: nat)
    requires !s.panicked && Waits(s, t, q, id) && q < |s.pools| && BC.Can(s.pools[q].sema, BC.Take(id))
    ensures P.Enabled(s, P.TakeToken(t))
    ensures var p' := P.Apply(s, P.TakeToken(t));
            SemaMove(s, p', t, q, BC.Do(s.pools[q].sema, BC.Take(id))) && p'.wrapped == s.wrapped &&
            P.PcOf(p', t) == P.Token(q, id, P.Got)
  {
  }

  lemma Fails(s: P.State, t: Thread, q: PoolId, id: nat)
    requires !s.panicked && Waits(s, t, q, id) && q < |s.pools| && BC.Can(s.pools[q].sema, BC.Fail(id))
    ensures P.Enabled(s, P.GiveUp(t))
    ensures var p' := P.Apply(s, P.GiveUp(t));
            SemaMove(s, p', t, q, BC.Do(s.pools[q].sema, BC.Fail(id))) && p'.wrapped == s.wrapped &&
            P.PcOf(p', t) == P.Returned(P.SessionDone)
  {
  }

  lemma Gives(s: P.State, t: Thread, q: PoolId, id: nat)
    requires !s.panicked && P.PcOf(s, t) == P.Token(q, id, P.Releasing) && q < |s.pools| && BC.Can(s.pools[q].sema, BC.Give(id))
    ensures P.Enabled(s, P.ReleaseToken(t))
    ensures var p' := P.Apply(s, P.ReleaseToken(t));
            SemaMove(s, p', t, q, BC.Do(s.pools[q].sema, BC.Give(id))) && p'.wrapped == s.wrapped &&
            P.PcOf(p', t) == P.Returned(P.SessionDone)
  {
  }

  /** Two moves of one thread are one. */
  lemma MovesJoin(s: P.State, p1: P.State, p2: P.State, t: Thread, q: PoolId, c: BC.Counter, c': BC.Counter)
    requires SemaMove(s, p1, t, q, c) && SemaMove(p1, p2, t, q, c')
    ensures SemaMove(s, p2, t, q, c')
  {
  }

  lemma ValidMoves(s: P.State, es: seq<P.Event>)
    requires PI.Valid(s) && P.Exec(s, es).Some?
    ensures PI.Valid(P.Exec(s, es).value)
  {
    PS.ExecValid(s, es);
  }

  /** The moves lead thread t, which is no worker afterwards, and the counter of pool q there. */
  ghost predicate Leads(s: P.State, moves: seq<P.Event>, p': P.State, t: Thread, q: PoolId, c: BC.Counter) {
    P.Exec(s, moves) == Some(p') && p'.wrapped == s.wrapped && SemaMove(s, p', t, q, c) && !P.PcOf(p', t).Work?
  }

  lemma GetTakes(s: P.State, t: Thread, r: P.RefId) returns (p': P.State)
    requires P.Enabled(s, P.CallGet(t, r))
    requires var sema := s.pools[s.prefs[r].pool].sema; BC.Can(sema, BC.Begin(|s.slots|)) && BC.Can(sema, BC.Take(|s.slots|))
    ensures var q := s.prefs[r].pool;
            Leads(s, [P.CallGet(t, r), P.TakeToken(t)], p', t, q, BC.Do(s.pools[q].sema, BC.Take(|s.slots|)))
  {
    var q, id := s.prefs[r].pool, |s.slots|;
    var sema := s.pools[q].sema;
    GetBegins(s, t, r);
    var p1 := P.Apply(s, P.CallGet(t, r));
    Takes(p1, t, q, id);
    p' := P.Apply(p1, P.TakeToken(t));
    Two(s, P.CallGet(t, r), P.TakeToken(t));
    assert BC.Do(BC.Do(sema, BC.Begin(id)), BC.Take(id)).calls == BC.Do(sema, BC.Take(id)).calls;
    MovesJoin(s, p1, p', t, q, BC.Do(sema, BC.Begin(id)), BC.Do(sema, BC.Take(id)));
  }

  lemma GetFails(s: P.State, t: Thread, r: P.RefId) returns (p': P.State)
    requires P.Enabled(s, P.CallGet(t, r)) && BC.Can(s.pools[s.prefs[r].pool].sema, BC.Begin(|s.slots|))
    ensures var q := s.prefs[r].pool; Leads(s, [P.CallGet(t, r), P.GiveUp(t)], p', t, q, s.pools[q].sema)
  {
    var q, id := s.prefs[r].pool, |s.slots|;
    var sema := s.pools[q].sema;
    GetBegins(s, t, r);
    var p1 := P.Apply(s, P.CallGet(t, r));
    Fails(p1, t, q, id);
    p' := P.Apply(p1, P.GiveUp(t));
    Two(s, P.CallGet(t, r), P.GiveUp(t));
    assert BC.Do(BC.Do(sema, BC.Begin(id)), BC.Fail(id)).calls == sema.calls;
    MovesJoin(s, p1, p', t, q, BC.Do(sema, BC.Begin(id)), sema);
  }

  /** A caller that has not called before. */
  lemma NewCaller(sema: S.State, id: nat)
    requires S.Valid(sema) && S.Enabled(sema, S.CallAcquire(id))
    ensures id !in SR.View(sema).calls && id !in SR.View(sema).holders && (SR.View(sema).closed <==> sema.f.closed)
  {
  }

  /** The ways an Acquire by a new caller can go. */
  lemma AcquireOutcome(sema: S.State, id: nat)
    requires S.Valid(sema) && S.Enabled(sema, S.CallAcquire(id)) && S.Apply(sema, S.CallAcquire(id)).spurious == 0
    ensures var se := S.CallAcquire(id); var pc := S.PcOf(S.Apply(sema, se), id); var view := SR.View(S.Apply(sema, se));
            if pc.Holding? then !sema.f.closed && BC.Can(SR.View(sema), BC.Take(id)) && view == BC.Do(SR.View(sema), BC.Take(id))
            else if pc.Waiting? then !sema.f.closed && BC.Can(SR.View(sema), BC.Begin(id)) && view == BC.Do(SR.View(sema), BC.Begin(id))
            else view == SR.View(sema)
  {
    SemaStep(sema, S.CallAcquire(id));
    SR.AcquireMoves(sema, S.CallAcquire(id));
  }

  lemma GetMoves(s: State, t: Thread, r: P.RefId) returns (p': P.State)
    requires Enabled(s, Get(t, r)) && SemaOk(s.semas[s.p.prefs[r].pool], s.p.pools[s.p.prefs[r].pool])
    requires S.Apply(s.semas[s.p.prefs[r].pool], S.CallAcquire(|s.p.slots|)).spurious == 0
    ensures var q, id := s.p.prefs[r].pool, |s.p.slots|;
            var view := SR.View(S.Apply(s.semas[q], S.CallAcquire(id)));
            Leads(s.p, Moves(s, Get(t, r)), p', t, q, view) && (id in view.calls ==> Waits(p', t, q, id))
  {
    var q, id := s.p.prefs[r].pool, |s.p.slots|;
    var sema := s.semas[q];
    var pc := S.PcOf(S.Apply(sema, S.CallAcquire(id)), id);
    NewCaller(sema, id);
    AcquireOutcome(sema, id);
    if pc.Holding? {
      p' := GetTakes(s.p, t, r);
    } else if pc.Waiting? {
      GetBegins(s.p, t, r);
      p' := P.Apply(s.p, P.CallGet(t, r));
      One(s.p, P.CallGet(t, r));
    } else if sema.f.closed {
      GetRefused(s.p, t, r);
      p' := P.Apply(s.p, P.CallGet(t, r));
      One(s.p, P.CallGet(t, r));
    } else {
      p' := GetFails(s.p, t, r);
    }
  }

  /** A caller outside Close steps: the closer of its pool is where it was. */
  lemma CloserKept(s: State, p': P.State, t: Thread, q: PoolId, se: S.Event)
    requires HasSema(s, q) && PoolOk(s, q) && PI.Workers(s.p.pools, s.p.pcs)
    requires S.Enabled(s.semas[q], se) && !se.CallClose? && !Closes(S.PcOf(s.semas[q], se.t))
    requires !Inner(se) ==> s.p.pools[q].main != Some(se.t)
    requires SemaMove(s.p, p', t, q, SR.View(S.Apply(s.semas[q], se))) && !P.PcOf(s.p, t).Work? && !P.PcOf(p', t).Work?
    requires SR.View(S.Apply(s.semas[q], se)).closed == s.p.pools[q].sema.closed
    ensures CloserOk(p'.pools[q], Draining(p'.pools[q], p'.pcs), S.Apply(s.semas[q], se))
  {
    DrainingKept(s.p, p', t, q, SR.View(S.Apply(s.semas[q], se)));
    CloserStays(s.semas[q], se);
  }

  lemma GetSound(s: State, e: Event)
    requires Sound(s) && Enabled(s, e) && e.Get? && Calm(Apply(s, e))
    ensures Sound(Apply(s, e)) && P.Exec(s.p, Moves(s, e)) == Some(Apply(s, e).p)
  {
    var q, se := s.p.prefs[e.r].pool, S.CallAcquire(|s.p.slots|);
    assert Apply(s, e).semas[q] == S.Apply(s.semas[q], se);
    MainKnown(s, q);
    var p' := GetMoves(s, e.t, e.r);
    ValidMoves(s.p, Moves(s, e));
    GotSound(s, p', e.t, q, se);
  }

  /** The thread and its caller, which began or ended a call, moved on together. */
  lemma GotSound(s: State, p': P.State, t: Thread, q: PoolId, se: S.Event)
    requires Sound(s) && HasSema(s, q) && S.Enabled(s.semas[q], se) && S.Apply(s.semas[q], se).spurious == 0
    requires PI.Valid(p') && !p'.wrapped && SemaMove(s.p, p', t, q, SR.View(S.Apply(s.semas[q], se)))
    requires !P.PcOf(s.p, t).Work? && !P.PcOf(p', t).Work?
    requires P.PcOf(s.p, t).Token? && P.PcOf(s.p, t).token.Getting? ==> P.PcOf(s.p, t).id == se.t
    requires se.t in SR.View(S.Apply(s.semas[q], se)).calls ==> Waits(p', t, q, se.t)
    requires !se.CallClose? && !Closes(S.PcOf(s.semas[q], se.t)) && (!Inner(se) ==> s.p.pools[q].main != Some(se.t))
    ensures Sound(State(p', s.semas[q := S.Apply(s.semas[q], se)]))
  {
    var sema, sema' := s.semas[q], S.Apply(s.semas[q], se);
    assert PoolOk(s, q);
    SemaStep(sema, se);
    OtherAction(sema, se);
    CallersKept(s.p, p', t, q, SR.View(sema'), se.t);
    CloserKept(s, p', t, q, se);
    SemaSound(s, p', t, q, sema');
  }

  /** A caller outside Close begins or ends its own call, if any. */
  lemma OtherAction(sema: S.State, se: S.Event)
    requires S.Valid(sema) && S.Enabled(sema, se) && !se.CallClose? && !Closes(S.PcOf(sema, se.t))
    requires BC.Can(SR.View(sema), SR.ActionOf(sema, se))
    ensures var c' := BC.Do(SR.View(sema), SR.ActionOf(sema, se));
            c'.closed == SR.View(sema).closed && forall i :: i in c'.calls && i != se.t ==> i in SR.View(sema).calls
  {
  }

  /** The number of a closed pool's own session is that of a session. */
  lemma MainKnown(s: State, q: PoolId)
    requires Sound(s) && HasSema(s, q)
    ensures s.p.pools[q].main.Some? ==> s.p.pools[q].main.value < |s.p.slots|
    ensures PoolOk(s, q)
  {
    assert PI.MainOk(s.p.slots, s.p.pools[q], q);
  }

  // Release, and steps of callers inside Acquire.

  lemma ReleaseSound(s: State, e: Event)
    requires Sound(s) && Enabled(s, e) && e.Release? && Calm(Apply(s, e))
    ensures Sound(Apply(s, e)) && P.Exec(s.p, Moves(s, e)) == Some(Apply(s, e).p)
  {
    var t := e.t;
    var q, id := P.PcOf(s.p, t).p, P.PcOf(s.p, t).id;
    var se := S.CallRelease(id);
    assert Apply(s, e).semas[q] == S.Apply(s.semas[q], se);
    MainKnown(s, q);
    TokenNotMain(s, t);
    SemaStep(s.semas[q], se);
    Gives(s.p, t, q, id);
    One(s.p, P.ReleaseToken(t));
    ValidMoves(s.p, Moves(s, e));
    GotSound(s, P.Apply(s.p, P.ReleaseToken(t)), t, q, se);
  }

  /** A thread's token is no pool's own session. */
  lemma TokenNotMain(s: State, t: Thread)
    requires Sound(s) && P.PcOf(s.p, t).Token?
    ensures P.PcOf(s.p, t).p < |s.p.pools| && s.p.pools[P.PcOf(s.p, t).p].main != Some(P.PcOf(s.p, t).id)
  {
    var q := P.PcOf(s.p, t).p;
    assert PI.TokenOk(s.p.pools, s.p.slots, t, s.p.pcs[t]);
    assert PI.MainOk(s.p.slots, s.p.pools[q], q);
  }

  /** The semaphore of pool q steps, and no thread of the pool notices. */
  lemma StillSound(s: State, q: PoolId, sema: S.State)
    requires Sound(s) && HasSema(s, q) && SemaOk(sema, s.p.pools[q])
    requires CloserOk(s.p.pools[q], Draining(s.p.pools[q], s.p.pcs), sema)
    ensures Sound(State(s.p, s.semas[q := sema]))
  {
    var s' := State(s.p, s.semas[q := sema]);
    forall r | 0 <= r < |s'.semas| ensures PoolOk(s', r) {
      assert PoolOk(s, r);
    }
  }

  lemma QuietSound(s: State, q: PoolId, se: S.Event)
    requires Sound(s) && HasSema(s, q) && Inner(se) && S.Enabled(s.semas[q], se)
    requires S.Apply(s.semas[q], se).spurious == 0 && SR.ActionOf(s.semas[q], se).Stutter?
    requires !Closes(S.PcOf(s.semas[q], se.t))
    ensures Sound(State(s.p, s.semas[q := S.Apply(s.semas[q], se)]))
  {
    assert PoolOk(s, q);
    SemaStep(s.semas[q], se);
    CloserStays(s.semas[q], se);
    StillSound(s, q, S.Apply(s.semas[q], se));
  }

  lemma WaiterFound(s: P.State, q: PoolId, id: nat)
    requires q < |s.pools| && CallersOk(s, q) && id in s.pools[q].sema.calls
    ensures Waits(s, WaiterOf(s, q, id), q, id)
  {
  }

  lemma TakeSound(s: State, q: PoolId, se: S.Event)
    requires Sound(s) && !s.p.panicked && HasSema(s, q) && Inner(se) && S.Enabled(s.semas[q], se)
    requires S.Apply(s.semas[q], se).spurious == 0 && SR.ActionOf(s.semas[q], se) == BC.Take(se.t)
    requires !Closes(S.PcOf(s.semas[q], se.t)) && se.t in SR.View(s.semas[q]).calls
    ensures var t := WaiterOf(s.p, q, se.t);
            P.Enabled(s.p, P.TakeToken(t)) &&
            Sound(State(P.Apply(s.p, P.TakeToken(t)), s.semas[q := S.Apply(s.semas[q], se)]))
  {
    var t := WaiterOf(s.p, q, se.t);
    assert PoolOk(s, q);
    SemaStep(s.semas[q], se);
    WaiterFound(s.p, q, se.t);
    Takes(s.p, t, q, se.t);
    PS.StepValid(s.p, P.TakeToken(t));
    GotSound(s, P.Apply(s.p, P.TakeToken(t)), t, q, se);
  }

  lemma FailSound(s: State, q: PoolId, se: S.Event)
    requires Sound(s) && !s.p.panicked && HasSema(s, q) && Inner(se) && S.Enabled(s.semas[q], se)
    requires S.Apply(s.semas[q], se).spurious == 0 && SR.ActionOf(s.semas[q], se) == BC.Fail(se.t)
    requires !Closes(S.PcOf(s.semas[q], se.t)) && se.t in SR.View(s.semas[q]).calls
    ensures var t := WaiterOf(s.p, q, se.t);
            P.Enabled(s.p, P.GiveUp(t)) &&
            Sound(State(P.Apply(s.p, P.GiveUp(t)), s.semas[q := S.Apply(s.semas[q], se)]))
  {
    var t := WaiterOf(s.p, q, se.t);
    assert PoolOk(s, q);
    SemaStep(s.semas[q], se);
    WaiterFound(s.p, q, se.t);
    Fails(s.p, t, q, se.t);
    PS.StepValid(s.p, P.GiveUp(t));
    GotSound(s, P.Apply(s.p, P.GiveUp(t)), t, q, se);
  }

  lemma InsideAcquire(s: State, e: Event)
    requires Sound(s) && Enabled(s, e) && e.Inside? && Calm(Apply(s, e)) && !Closes(S.PcOf(s.semas[e.q], e.se.t))
    ensures Sound(Apply(s, e)) && P.Exec(s.p, Moves(s, e)) == Some(Apply(s, e).p)
  {
    var q, se := e.q, e.se;
    assert Apply(s, e).semas[q] == S.Apply(s.semas[q], se);
    assert PoolOk(s, q);
    OtherStep(s.semas[q], se);
    match SR.ActionOf(s.semas[q], se)
    case Take(_) =>
      TakeSound(s, q, se);
      One(s.p, P.TakeToken(WaiterOf(s.p, q, se.t)));
    case Fail(_) =>
      FailSound(s, q, se);
      One(s.p, P.GiveUp(WaiterOf(s.p, q, se.t)));
    case _ => QuietSound(s, q, se);
  }

  // Close.

  /** The worker of a pool moves on to another stage. */
  lemma WorkerSound(s: State, p': P.State, t: Thread, q: PoolId, sema': S.State)
    requires Sound(s) && HasSema(s, q) && S.Valid(sema') && sema'.spurious == 0
    requires PI.Valid(p') && !p'.wrapped && SemaMove(s.p, p', t, q, SR.View(sema'))
    requires P.PcOf(s.p, t).Work? && P.PcOf(p', t).Work?
    requires SR.View(sema').calls == s.p.pools[q].sema.calls && SR.View(sema').closed
    requires var main := s.p.pools[q].main;
             main.Some? && sema'.closer == main &&
             var pc := S.PcOf(sema', main.value);
             if P.PcOf(p', t).work.Draining? then Closes(pc) else pc.Idle? || pc.Drained?
    ensures Sound(State(p', s.semas[q := sema']))
  {
    assert PoolOk(s, q);
    WorkerLeavesCallers(s.p, p', t, q, SR.View(sema'));
    WorkerStage(p', t, q);
    SemaSound(s, p', t, q, sema');
  }

  lemma WorkerLeavesCallers(s: P.State, p': P.State, t: Thread, q: PoolId, c: BC.Counter)
    requires q < |s.pools| && CallersOk(s, q) && SemaMove(s, p', t, q, c) && P.PcOf(s, t).Work?
    requires c.calls == s.pools[q].sema.calls
    ensures CallersOk(p', q)
  {
    forall i | i in c.calls ensures exists u: Thread :: Waits(p', u, q, i) {
      var u: Thread :| Waits(s, u, q, i);
      assert Waits(p', u, q, i);
    }
  }

  lemma WorkerStage(s: P.State, t: Thread, q: PoolId)
    requires PI.Workers(s.pools, s.pcs) && P.PcOf(s, t).Work? && P.PcOf(s, t).p == q
    ensures q < |s.pools| && (Draining(s.pools[q], s.pcs) <==> P.PcOf(s, t).work.Draining?)
    ensures WorkerOf(s, q) == t
  {
  }

  lemma Shuts(s: P.State, t: Thread)
    requires P.PcOf(s, t).Work? && P.PcOf(s, t).work.Shutting? && P.Known(s, t) && !s.panicked
    requires BC.Can(P.PoolOf(s, t).sema, BC.Shut)
    ensures P.Enabled(s, P.ShutSemaphore(t))
    ensures var p', q := P.Apply(s, P.ShutSemaphore(t)), P.PcOf(s, t).p;
            SemaMove(s, p', t, q, BC.Do(s.pools[q].sema, BC.Shut)) && p'.wrapped == s.wrapped &&
            P.PcOf(p', t).Work? && P.PcOf(p', t).work.Draining?
  {
  }

  lemma Drains(s: P.State, t: Thread, ok: bool)
    requires P.PcOf(s, t).Work? && P.PcOf(s, t).work.Draining? && P.Known(s, t) && !s.panicked
    requires ok ==> BC.Can(P.PoolOf(s, t).sema, BC.Drain)
    ensures var e := if ok then P.Drained(t) else P.GiveUp(t);
            P.Enabled(s, e) &&
            var p', q := P.Apply(s, e), P.PcOf(s, t).p;
            SemaMove(s, p', t, q, if ok then BC.Do(s.pools[q].sema, BC.Drain) else s.pools[q].sema) &&
            p'.wrapped == s.wrapped && P.PcOf(p', t).Work? && !P.PcOf(p', t).work.Draining?
  {
  }

  /** A semaphore that is not closed and whose `mu` is free. */
  lemma CloseBegins(sema: S.State, c: S.Caller)
    requires S.Valid(sema) && S.Enabled(sema, S.CallClose(c)) && !SR.View(sema).closed
    ensures var sema' := S.Apply(sema, S.CallClose(c));
            SR.ActionOf(sema, S.CallClose(c)) == BC.Shut && sema'.closer == Some(c) && Closes(S.PcOf(sema', c)) &&
            sema'.spurious == sema.spurious
  {
  }

  lemma CloseSound(s: State, e: Event)
    requires Sound(s) && Enabled(s, e) && e.Close? && Calm(Apply(s, e))
    ensures Sound(Apply(s, e)) && P.Exec(s.p, Moves(s, e)) == Some(Apply(s, e).p)
  {
    var t, q := e.t, P.PcOf(s.p, e.t).p;
    var se := S.CallClose(s.p.pools[q].main.value);
    assert PoolOk(s, q);
    PS.WorkerStage(s.p, t);
    CloseBegins(s.semas[q], se.t);
    SemaStep(s.semas[q], se);
    Shuts(s.p, t);
    One(s.p, P.ShutSemaphore(t));
    PS.StepValid(s.p, P.ShutSemaphore(t));
    WorkerSound(s, P.Apply(s.p, P.ShutSemaphore(t)), t, q, S.Apply(s.semas[q], se));
  }

  /** The worker of a pool whose caller is inside Close. */
  lemma CloserDrains(s: State, q: PoolId, se: S.Event)
    requires Sound(s) && HasSema(s, q) && Inner(se) && S.Enabled(s.semas[q], se) && Closes(S.PcOf(s.semas[q], se.t))
    ensures var t := WorkerOf(s.p, q);
            P.PcOf(s.p, t).Work? && P.PcOf(s.p, t).work.Draining? && P.PcOf(s.p, t).p == q && P.Known(s.p, t)
    ensures s.p.pools[q].main == Some(se.t) && s.p.pools[q].sema == SR.View(s.semas[q]) && S.Valid(s.semas[q])
    ensures Draining(s.p.pools[q], s.p.pcs)
  {
    assert PoolOk(s, q);
    ClosingStep(s.semas[q], se);
    DrainsAt(s.p, q);
  }

  lemma DrainsAt(s: P.State, q: PoolId)
    requires q < |s.pools| && PI.Workers(s.pools, s.pcs) && Draining(s.pools[q], s.pcs)
    ensures var t := WorkerOf(s, q);
            P.PcOf(s, t).Work? && P.PcOf(s, t).work.Draining? && P.PcOf(s, t).p == q && P.Known(s, t)
  {
  }

  lemma ClosesOn(s: State, q: PoolId, se: S.Event)
    requires Sound(s) && HasSema(s, q) && Inner(se) && S.Enabled(s.semas[q], se) && Closes(S.PcOf(s.semas[q], se.t))
    requires S.Apply(s.semas[q], se).spurious == 0 && Closes(S.PcOf(S.Apply(s.semas[q], se), se.t))
    ensures Sound(State(s.p, s.semas[q := S.Apply(s.semas[q], se)]))
  {
    CloserDrains(s, q, se);
    ClosingStep(s.semas[q], se);
    SemaStep(s.semas[q], se);
    StillSound(s, q, S.Apply(s.semas[q], se));
  }

  lemma ClosesOff(s: State, q: PoolId, se: S.Event)
    requires Sound(s) && !s.p.panicked && HasSema(s, q) && Inner(se) && S.Enabled(s.semas[q], se)
    requires S.Apply(s.semas[q], se).spurious == 0
    requires Closes(S.PcOf(s.semas[q], se.t)) && !Closes(S.PcOf(S.Apply(s.semas[q], se), se.t))
    ensures var t := WorkerOf(s.p, q); var pe := if SR.ActionOf(s.semas[q], se).Drain? then P.Drained(t) else P.GiveUp(t);
            P.Enabled(s.p, pe) && Sound(State(P.Apply(s.p, pe), s.semas[q := S.Apply(s.semas[q], se)]))
  {
    var t := WorkerOf(s.p, q);
    CloserDrains(s, q, se);
    ClosingStep(s.semas[q], se);
    SemaStep(s.semas[q], se);
    var ok := SR.ActionOf(s.semas[q], se).Drain?;
    Drains(s.p, t, ok);
    var pe := if ok then P.Drained(t) else P.GiveUp(t);
    PS.StepValid(s.p, pe);
    WorkerSound(s, P.Apply(s.p, pe), t, q, S.Apply(s.semas[q], se));
  }

  lemma InsideClose(s: State, e: Event)
    requires Sound(s) && Enabled(s, e) && e.Inside? && Calm(Apply(s, e)) && Closes(S.PcOf(s.semas[e.q], e.se.t))
    ensures Sound(Apply(s, e)) && P.Exec(s.p, Moves(s, e)) == Some(Apply(s, e).p)
  {
    var q, se := e.q, e.se;
    var t := WorkerOf(s.p, q);
    assert Apply(s, e).semas[q] == S.Apply(s.semas[q], se);
    CloserDrains(s, q, se);
    ClosingOutcome(s, q, se);
    if Closes(S.PcOf(S.Apply(s.semas[q], se), se.t)) {
      ClosesOn(s, q, se);
    } else {
      ClosesOff(s, q, se);
      One(s.p, if SR.ActionOf(s.semas[q], se).Drain? then P.Drained(t) else P.GiveUp(t));
    }
  }

  lemma ClosingOutcome(s: State, q: PoolId, se: S.Event)
    requires HasSema(s, q) && S.Valid(s.semas[q]) && Inner(se) && S.Enabled(s.semas[q], se) && Closes(S.PcOf(s.semas[q], se.t))
    ensures var t := WorkerOf(s.p, q);
            Outcome(s, q, se) ==
            if Closes(S.PcOf(S.Apply(s.semas[q], se), se.t)) then []
            else [if SR.ActionOf(s.semas[q], se).Drain? then P.Drained(t) else P.GiveUp(t)]
  {
    ClosingStep(s.semas[q], se);
  }

  // ---- Every run ----------------------------------------------------------------------------------------------

  /** Every event is the moves of the pool it stands for, with each counter the view of its semaphore. */
  lemma StepSound(s: State, e: Event)
    requires Sound(s) && Enabled(s, e) && Calm(Apply(s, e))
    ensures Sound(Apply(s, e)) && P.Exec(s.p, Moves(s, e)) == Some(Apply(s, e).p)
  {
    match e
    case Outside(_) => OutsideSound(s, e);
    case Get(_, _) => GetSound(s, e);
    case Close(_) => CloseSound(s, e);
    case Release(_) => ReleaseSound(s, e);
    case Inside(q, se) =>
      if Closes(S.PcOf(s.semas[q], se.t)) {
        InsideClose(s, e);
      } else {
        InsideAcquire(s, e);
      }
  }

  /** The steps of the pools a run amounts to. */
  ghost function Trace(s: State, es: seq<Event>): seq<P.Event>
    requires Exec(s, es).Some?
    decreases |es|
  {
    if es == [] then [] else Moves(s, es[0]) + Trace(Apply(s, es[0]), es[1..])
  }

  lemma CalmBefore(s: State, e: Event)
    requires Enabled(s, e) && Calm(Apply(s, e))
    ensures Calm(s)
  {
    if s.p.wrapped && P.Exec(s.p, Moves(s, e)).Some? {
      PF.WrappedStays(s.p, Moves(s, e));
    }
    var s' := Apply(s, e);
    forall q | 0 <= q < |s.semas| ensures s.semas[q].spurious == 0 {
      assert s'.semas[q].spurious == 0;
      if Stepped(s, e).Some? && Stepped(s, e).value.0 == q {
        var se := Stepped(s, e).value.1;
        assert s'.semas[q] == S.Apply(s.semas[q], se);
        OneSpurious(s.semas[q], se);
      }
    }
  }

  lemma OneSpurious(sema: S.State, se: S.Event)
    requires S.Enabled(sema, se)
    ensures sema.spurious <= S.Apply(sema, se).spurious
  {
  }

  lemma {:induction false} CalmThroughout(s: State, es: seq<Event>)
    requires Exec(s, es).Some? && Calm(Exec(s, es).value)
    ensures Calm(s)
    decreases |es|
  {
    if es == [] {
    } else {
      CalmThroughout(Apply(s, es[0]), es[1..]);
      CalmBefore(s, es[0]);
    }
  }

  lemma {:induction false} ExecSound(s: State, es: seq<Event>)
    requires Sound(s) && Exec(s, es).Some? && Calm(Exec(s, es).value)
    ensures Sound(Exec(s, es).value) && P.Exec(s.p, Trace(s, es)) == Some(Exec(s, es).value.p)
    decreases |es|
  {
    if es == [] {
    } else {
      var s' := Apply(s, es[0]);
      CalmThroughout(s', es[1..]);
      StepSound(s, es[0]);
      ExecSound(s', es[1..]);
      PR.ExecConcat(s.p, Moves(s, es[0]), Trace(s', es[1..]));
    }
  }

  /** Every run of the pools over real semaphores in which no spurious release happens is a run of the pools
      over counters, and each counter is at all times the view of its semaphore; so everything proved of
      the pools holds over real semaphores. */
  lemma PoolsOverSemaphores(es: seq<Event>)
    requires Exec(EMPTY, es).Some? && Calm(Exec(EMPTY, es).value)
    ensures var s := Exec(EMPTY, es).value;
            P.Exec(P.Init(), Trace(EMPTY, es)) == Some(s.p) && |s.semas| == |s.p.pools| &&
            forall q :: 0 <= q < |s.semas| ==> SR.View(s.semas[q]) == s.p.pools[q].sema
  {
    PI.InitValid();
    ExecSound(EMPTY, es);
    SoundViews(Exec(EMPTY, es).value);
  }

  lemma SoundViews(s: State)
    requires Sound(s)
    ensures |s.semas| == |s.p.pools| && forall q :: 0 <= q < |s.semas| ==> SR.View(s.semas[q]) == s.p.pools[q].sema
  {
    forall q | 0 <= q < |s.semas| ensures SR.View(s.semas[q]) == s.p.pools[q].sema {
      assert PoolOk(s, q);
    }
  }
}
