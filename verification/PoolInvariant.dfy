/** What every event of PoolProtocol keeps. The invariant is a conjunction of predicates over the
    parts of the state they need; the lemmas of the first section say which changes of those parts
    keep them, and those of the second apply them to the events. */
module PoolInvariant {
  import opened Common
  import opened PoolProtocol
  import BC = BoundedCounter

  // ---- One pool and its worker ----------------------------------------------------------------

  function WorkOf(pool: Pool, pcs: map<Thread, Pc>): Option<WorkAt> {
    if pool.worker.Some? && pool.worker.value in pcs && pcs[pool.worker.value].Work?
    then Some(pcs[pool.worker.value].work) else None
  }

  ghost predicate Fresh(pool: Pool) {
    !pool.live && !pool.dead && !pool.loggedOut && pool.refs == 1 && pool.shutdowns == 0 && Unused(pool)
  }

  ghost predicate Unused(pool: Pool) {
    pool.sema.calls == {} && pool.sema.holders == {} && !pool.sema.closed && !pool.sema.drained
  }

  /** What is known of a pool from the point its worker has reached. */
  ghost predicate StageOk(pool: Pool, work: Option<WorkAt>) {
    && pool.max >= 2 && pool.sema.limit == pool.max - 1 && BC.Promise(pool.sema)
    && (pool.live ==> pool.main.Some?)
    && (pool.emptied ==> pool.loggedOut)
    && (pool.live ==> pool.shutdowns == if pool.refs == 0 then 1 else 0)
    && (work.Some? ==> !pool.dead)
    && match work
       case None =>
         if pool.removed then pool.dead && (if pool.live then pool.refs == 0 && pool.loggedOut else pool.refs == 1 && Unused(pool) && pool.main.None?)
         else pool.live && !pool.dead && pool.refs > 0 && !pool.loggedOut && !pool.sema.closed
       case Some(w) =>
         match w
         case Opening => Fresh(pool) && !pool.removed && pool.main.None?
         case LoggingIn(id) => Fresh(pool) && !pool.removed && pool.main == Some(id)
         case Unwinding(id) => Fresh(pool) && !pool.removed && pool.main == Some(id)
         case RollingBack => Fresh(pool) && !pool.removed && pool.main.None?
         case RollingDead => Fresh(pool) && pool.removed && pool.main.None?
         case Shutting => pool.live && pool.refs == 0 && !pool.removed && !pool.loggedOut && !pool.sema.closed
         case Draining => pool.live && pool.refs == 0 && !pool.removed && !pool.loggedOut && pool.sema.closed
         case LoggingOut(clean) =>
           pool.live && pool.refs == 0 && !pool.removed && !pool.loggedOut && pool.sema.closed && (clean ==> pool.sema.drained)
         case ClosingAll(clean) =>
           pool.live && pool.refs == 0 && !pool.removed && pool.loggedOut && pool.sema.closed && (clean ==> pool.sema.drained)
         case Removing(clean) =>
           pool.emptied && pool.live && pool.refs == 0 && !pool.removed && pool.loggedOut && pool.sema.closed && (clean ==> pool.sema.drained)
         case Burying(clean) =>
           pool.live && pool.refs == 0 && pool.removed && pool.loggedOut && pool.sema.closed && (clean ==> pool.sema.drained)
  }

  /** Every pool that is being set up, rolled back or shut down has one thread that does it. */
  ghost predicate Workers(pools: seq<Pool>, pcs: map<Thread, Pc>) {
    && (forall p :: 0 <= p < |pools| && pools[p].worker.Some? ==>
          var t := pools[p].worker.value; t in pcs && pcs[t].Work? && pcs[t].p == p)
    && (forall t :: t in pcs && pcs[t].Work? ==>
          pcs[t].p < |pools| && pools[pcs[t].p].worker == Some(t))
  }

  ghost predicate Stages(pools: seq<Pool>, pcs: map<Thread, Pc>) {
    forall p :: 0 <= p < |pools| ==> StageOk(pools[p], WorkOf(pools[p], pcs))
  }

  lemma WorkerMoves(pools: seq<Pool>, pcs: map<Thread, Pc>, t: Thread, p: PoolId, pool: Pool, pc: Pc)
    requires Workers(pools, pcs) && Stages(pools, pcs) && p < |pools|
    requires t in pcs && pcs[t].Work? ==> pcs[t].p == p
    requires pools[p].worker.Some? ==> pools[p].worker == Some(t)
    requires if pc.Work? then pc.p == p && pool.worker == Some(t) else pool.worker == None
    requires StageOk(pool, if pc.Work? then Some(pc.work) else None)
    ensures Workers(pools[p := pool], pcs[t := pc]) && Stages(pools[p := pool], pcs[t := pc])
  {
    var pools', pcs' := pools[p := pool], pcs[t := pc];
    forall q | 0 <= q < |pools'| && q != p
      ensures WorkOf(pools'[q], pcs') == WorkOf(pools[q], pcs)
    {
    }
  }

  lemma OthersMove(pools: seq<Pool>, pcs: map<Thread, Pc>, t: Thread, pc: Pc)
    requires Workers(pools, pcs) && Stages(pools, pcs)
    requires !pc.Work? && (t in pcs ==> !pcs[t].Work?)
    ensures Workers(pools, pcs[t := pc]) && Stages(pools, pcs[t := pc])
  {
    forall q | 0 <= q < |pools| ensures WorkOf(pools[q], pcs[t := pc]) == WorkOf(pools[q], pcs) {
    }
  }

  lemma PoolChanges(pools: seq<Pool>, pcs: map<Thread, Pc>, p: PoolId, pool: Pool)
    requires Workers(pools, pcs) && Stages(pools, pcs) && p < |pools|
    requires pool.worker == pools[p].worker && StageOk(pool, WorkOf(pools[p], pcs))
    ensures Workers(pools[p := pool], pcs) && Stages(pools[p := pool], pcs)
  {
  }

  lemma PoolAppears(pools: seq<Pool>, pcs: map<Thread, Pc>, t: Thread, pool: Pool, app: App)
    requires Workers(pools, pcs) && Stages(pools, pcs)
    requires t in pcs ==> !pcs[t].Work?
    requires pool.worker == Some(t) && StageOk(pool, Some(Opening))
    ensures Workers(pools + [pool], pcs[t := Work(app, |pools|, Opening)])
    ensures Stages(pools + [pool], pcs[t := Work(app, |pools|, Opening)])
  {
    var pcs' := pcs[t := Work(app, |pools|, Opening)];
    forall q | 0 <= q < |pools| ensures WorkOf(pools[q], pcs') == WorkOf(pools[q], pcs) {
    }
  }

  // ---- The cache ------------------------------------------------------------------------------

  /** The cache holds exactly the pools that were not removed, each under its own key; a pool is
      inserted only after every earlier pool of its key was removed. */
  ghost predicate Cached(pools: seq<Pool>, cache: map<Key, PoolId>) {
    && (forall k :: k in cache ==> cache[k] < |pools| && pools[cache[k]].key == k && !pools[cache[k]].removed)
    && (forall p :: 0 <= p < |pools| && !pools[p].removed ==> pools[p].key in cache && cache[pools[p].key] == p)
    && (forall p, q :: 0 <= p < q < |pools| && pools[p].key == pools[q].key ==> pools[p].removed)
  }

  // ---- Callers of Login and Drop ----------------------------------------------------------------

  /** Pools keep their identity, and going live, dying, leaving the cache, being drained and reaching
      zero references are final. */
  ghost predicate Evolves(before: seq<Pool>, after: seq<Pool>) {
    && |before| <= |after|
    && forall p :: 0 <= p < |before| ==> PoolEvolves(before[p], after[p])
  }

  ghost predicate PoolEvolves(b: Pool, a: Pool) {
    && a.key == b.key && a.mod == b.mod && a.pin == b.pin && a.max == b.max
    && (b.live ==> a.live)
    && (b.dead ==> a.dead)
    && (b.removed ==> a.removed)
    && (b.live && b.refs == 0 ==> a.refs == 0)
    && (b.loggedOut ==> a.loggedOut)
    && (b.sema.drained ==> a.sema.drained)
    && b.shutdowns <= a.shutdowns
  }

  ghost predicate LoginOk(pools: seq<Pool>, pc: Pc)
    requires pc.Login?
  {
    && (forall q :: q in pc.seen ==> q < |pools| && pools[q].dead && pools[q].key == pc.c.key)
    && match pc.at
       case Lookup => true
       case AwaitLive(p) => p < |pools| && pools[p].key == pc.c.key && (forall q :: q in pc.seen ==> q < p)
       case LoadInc(p) => p < |pools| && pools[p].key == pc.c.key && pools[p].live && pools[p].pin == pc.c.pin
       case CasInc(p, v) => p < |pools| && pools[p].key == pc.c.key && pools[p].live && pools[p].pin == pc.c.pin && v > 0
       case AwaitDead(p) => p < |pools| && pools[p].key == pc.c.key && pools[p].live && pools[p].pin == pc.c.pin
  }

  ghost predicate DecOk(pools: seq<Pool>, pc: Pc)
    requires pc.Dec?
  {
    pc.p < |pools| && pools[pc.p].live && (pc.dec.CasDec? ==> pc.dec.v > 0)
  }

  ghost predicate CallerOk(pools: seq<Pool>, prefs: seq<Ref>, pc: Pc) {
    && (pc.Login? ==> LoginOk(pools, pc))
    && (pc.Dec? ==> DecOk(pools, pc))
    && (pc.Returned? && pc.result.LoggedIn? ==> pc.result.r < |prefs|)
  }

  ghost predicate Callers(pools: seq<Pool>, prefs: seq<Ref>, pcs: map<Thread, Pc>) {
    forall t :: t in pcs ==> CallerOk(pools, prefs, pcs[t])
  }

  lemma CallersMove(pools: seq<Pool>, pools': seq<Pool>, prefs: seq<Ref>, prefs': seq<Ref>,
                    pcs: map<Thread, Pc>, t: Thread, pc: Pc)
    requires Callers(pools, prefs, pcs) && Evolves(pools, pools') && |prefs| <= |prefs'|
    requires CallerOk(pools', prefs', pc)
    ensures Callers(pools', prefs', pcs[t := pc])
  {
  }

  // ---- References -------------------------------------------------------------------------------

  ghost predicate RefOk(pools: seq<Pool>, ref: Ref) {
    ref.pool < |pools| && pools[ref.pool].live && pools[ref.pool].pin == ref.pin
  }

  ghost predicate References(pools: seq<Pool>, prefs: seq<Ref>) {
    forall r :: 0 <= r < |prefs| ==> RefOk(pools, prefs[r])
  }

  function Undropped(prefs: seq<Ref>, p: PoolId): set<RefId> {
    set r | 0 <= r < |prefs| && prefs[r].pool == p && !prefs[r].dropped
  }

  function Dropping(pcs: map<Thread, Pc>, p: PoolId): set<Thread> {
    set t | t in pcs && pcs[t].Dec? && pcs[t].p == p
  }

  /** The reference count is the number of undropped PoolRefs plus the Drops between their mark and
      their decrement. */
  ghost predicate Counts(pools: seq<Pool>, prefs: seq<Ref>, pcs: map<Thread, Pc>) {
    forall p :: 0 <= p < |pools| && pools[p].live ==> Count(pools[p].refs, prefs, pcs, p)
  }

  ghost predicate Count(refs: nat, prefs: seq<Ref>, pcs: map<Thread, Pc>, p: PoolId) {
    refs == |Undropped(prefs, p)| + |Dropping(pcs, p)|
  }

  lemma DroppingMove(pcs: map<Thread, Pc>, t: Thread, pc: Pc, p: PoolId)
    ensures |Dropping(pcs[t := pc], p)| ==
            |Dropping(pcs, p)| + (if pc.Dec? && pc.p == p then 1 else 0)
            - (if t in pcs && pcs[t].Dec? && pcs[t].p == p then 1 else 0)
  {
    assert Dropping(pcs[t := pc], p) ==
           if pc.Dec? && pc.p == p then Dropping(pcs, p) + {t} else Dropping(pcs, p) - {t};
  }

  lemma UndroppedAppend(prefs: seq<Ref>, ref: Ref, p: PoolId)
    requires !ref.dropped
    ensures |Undropped(prefs + [ref], p)| == |Undropped(prefs, p)| + if ref.pool == p then 1 else 0
  {
    assert Undropped(prefs + [ref], p) == if ref.pool == p then Undropped(prefs, p) + {|prefs|} else Undropped(prefs, p);
  }

  lemma UndroppedMark(prefs: seq<Ref>, r: RefId, p: PoolId)
    requires r < |prefs| && !prefs[r].dropped
    ensures |Undropped(prefs[r := prefs[r].(dropped := true)], p)| ==
            |Undropped(prefs, p)| - if prefs[r].pool == p then 1 else 0
  {
    assert Undropped(prefs[r := prefs[r].(dropped := true)], p) == Undropped(prefs, p) - {r};
    assert r in Undropped(prefs, p) <==> prefs[r].pool == p;
  }

  // ---- Tokens and sessions ------------------------------------------------------------------------

  ghost predicate MainOk(slots: seq<Slot>, pool: Pool, p: PoolId) {
    pool.main.Some? ==> pool.main.value < |slots| && slots[pool.main.value] == Slot(p, Main)
  }

  ghost predicate TokenOk(pools: seq<Pool>, slots: seq<Slot>, t: Thread, pc: Pc) {
    pc.Token? ==>
      && pc.p < |pools| && pools[pc.p].live
      && pc.id < |slots| && slots[pc.id] == Slot(pc.p, OfThread(t))
      && (if pc.token.Getting? then pc.id in pools[pc.p].sema.calls else pc.id in pools[pc.p].sema.holders)
  }

  ghost predicate HandleOk(pools: seq<Pool>, slots: seq<Slot>, h: HandleId, handle: Handle) {
    && handle.pool < |pools| && pools[handle.pool].live
    && handle.id < |slots| && slots[handle.id].pool == handle.pool
    && (!handle.closed ==> slots[handle.id].owner == OfHandle(h) && handle.id in pools[handle.pool].sema.holders)
  }

  ghost predicate SemaOk(slots: seq<Slot>, pool: Pool, p: PoolId) {
    && pool.sema.calls !! pool.sema.holders
    && forall id :: id in pool.sema.calls + pool.sema.holders ==>
         id < |slots| && slots[id].pool == p && (slots[id].owner.OfThread? || slots[id].owner.OfHandle?)
  }

  ghost predicate PoolTokens(pools: seq<Pool>, slots: seq<Slot>) {
    forall p :: 0 <= p < |pools| ==> MainOk(slots, pools[p], p) && SemaOk(slots, pools[p], p)
  }

  ghost predicate ThreadTokens(pools: seq<Pool>, slots: seq<Slot>, pcs: map<Thread, Pc>) {
    forall t :: t in pcs ==> TokenOk(pools, slots, t, pcs[t])
  }

  ghost predicate HandleTokens(pools: seq<Pool>, slots: seq<Slot>, handles: seq<Handle>) {
    forall h :: 0 <= h < |handles| ==> HandleOk(pools, slots, h, handles[h])
  }

  ghost predicate Tokens(s: State) {
    PoolTokens(s.pools, s.slots) && ThreadTokens(s.pools, s.slots, s.pcs) && HandleTokens(s.pools, s.slots, s.handles)
  }

  // A token changes hands: the slot numbered id of pool p gets a new owner.

  ghost predicate Handover(pool: Pool, pool': Pool, id: nat) {
    && pool'.live == pool.live
    && pool.sema.calls - {id} <= pool'.sema.calls
    && pool.sema.holders - {id} <= pool'.sema.holders
  }

  lemma ThreadTokensHandover(pools: seq<Pool>, slots: seq<Slot>, pcs: map<Thread, Pc>,
                             p: PoolId, pool: Pool, id: nat, owner: Owner, t: Thread, pc: Pc)
    requires ThreadTokens(pools, slots, pcs) && p < |pools| && id < |slots|
    requires Handover(pools[p], pool, id)
    requires slots[id].owner.OfThread? ==> slots[id].owner.t == t
    requires TokenOk(pools[p := pool], slots[id := slots[id].(owner := owner)], t, pc)
    ensures ThreadTokens(pools[p := pool], slots[id := slots[id].(owner := owner)], pcs[t := pc])
  {
    forall u | u in pcs && u != t
      ensures TokenOk(pools[p := pool], slots[id := slots[id].(owner := owner)], u, pcs[u])
    {
      assert TokenOk(pools, slots, u, pcs[u]);
    }
  }

  lemma HandleTokensHandover(pools: seq<Pool>, slots: seq<Slot>, handles: seq<Handle>,
                             p: PoolId, pool: Pool, id: nat, owner: Owner)
    requires HandleTokens(pools, slots, handles) && p < |pools| && id < |slots|
    requires Handover(pools[p], pool, id)
    requires !slots[id].owner.OfHandle?
    ensures HandleTokens(pools[p := pool], slots[id := slots[id].(owner := owner)], handles)
  {
    forall h | 0 <= h < |handles|
      ensures HandleOk(pools[p := pool], slots[id := slots[id].(owner := owner)], h, handles[h])
    {
      assert HandleOk(pools, slots, h, handles[h]);
    }
  }

  lemma PoolTokensHandover(pools: seq<Pool>, slots: seq<Slot>, p: PoolId, pool: Pool, id: nat, owner: Owner)
    requires PoolTokens(pools, slots) && p < |pools| && id < |slots| && slots[id].pool == p
    requires pool.sema.calls <= pools[p].sema.calls + {id} && pool.sema.holders <= pools[p].sema.holders + {id}
    requires pool.sema.calls !! pool.sema.holders
    requires id in pool.sema.calls + pool.sema.holders ==> owner.OfThread? || owner.OfHandle?
    requires pool.main == pools[p].main || pool.main == None
    requires pool.main != Some(id)
    ensures PoolTokens(pools[p := pool], slots[id := slots[id].(owner := owner)])
  {
    var pools', slots' := pools[p := pool], slots[id := slots[id].(owner := owner)];
    forall q | 0 <= q < |pools'| ensures MainOk(slots', pools'[q], q) && SemaOk(slots', pools'[q], q) {
      assert MainOk(slots, pools[q], q) && SemaOk(slots, pools[q], q);
      forall x | x in pools'[q].sema.calls + pools'[q].sema.holders
        ensures x < |slots'| && slots'[x].pool == q && (slots'[x].owner.OfThread? || slots'[x].owner.OfHandle?)
      {
        assert x == id || x in pools[q].sema.calls + pools[q].sema.holders;
      }
    }
  }

  /** From the moment it is opened until Logout or the rollback, the session of a cached pool is
      open; once the pool is live, the token is logged in. */
  ghost predicate LoginKept(pools: seq<Pool>, open: set<nat>, loggedIn: set<Key>) {
    forall p :: 0 <= p < |pools| && !pools[p].removed && !pools[p].loggedOut && pools[p].main.Some? ==>
      pools[p].main.value in open && (pools[p].live ==> pools[p].key in loggedIn)
  }

  ghost predicate Sessions(s: State) {
    && (forall id :: id in s.open ==> id < |s.slots|)
    && LoginKept(s.pools, s.open, s.loggedIn)
  }

  ghost predicate Registry(s: State) {
    && Workers(s.pools, s.pcs)
    && Stages(s.pools, s.pcs)
    && Cached(s.pools, s.cache)
    && Callers(s.pools, s.prefs, s.pcs)
    && References(s.pools, s.prefs)
    && Counts(s.pools, s.prefs, s.pcs)
    && !s.panicked
  }

  /** The invariant, while no reference count passed the range of uint32. */
  ghost predicate Valid(s: State) {
    !s.wrapped ==> Registry(s) && Tokens(s) && Sessions(s)
  }

  lemma InitValid()
    ensures Valid(Init())
  {
  }
}
