/** KMS and wrapper instances that own modules and session pools: pkcs11KMS.Open and Close
    (kms/pkcs11/pkcs11.go), pkcs11Wrapper.SetConfig, with and Finalize (kms/pkcs11/wrapper.go).

    The state joins the pools of PoolProtocol with the module cache of ModuleCache. A thread runs
    one Open, Close, SetConfig, with or Finalize; inside it runs Login and Drop of PoolProtocol.
    The interface demands that a KMS is opened once; that Finalize of a wrapper is called once, not
    concurrently with calls that use it, is an assumption. */
module Lifetime {
  import opened Common
  import P = PoolProtocol
  import PI = PoolInvariant
  import M = ModuleCache

  type Thread = P.Thread
  type AppId = P.App

  datatype Stage =
    | Entering(t: Thread)              // Open or SetConfig by t owns the module Ref
    | Ready(r: P.RefId)                // an open KMS with its PoolRef
    | Leaving(t: Thread)               // Close by t won the PoolRef's swap and is in Drop
    | Serving(users: set<Thread>)      // a configured wrapper and the calls inside `with`
    | Left                             // nothing of the instance uses the module Ref any more

  /** `pref` is the field pool of a KMS; `dropper` is the thread that drops the module Ref, if any. */
  datatype App = App(mref: M.RefId, stage: Stage, pref: Option<P.RefId>, dropper: Option<Thread>)

  datatype Task =
    | Free
    | Opening(a: AppId)                // the module is open, GetToken is next
    | LoggingIn(a: AppId)              // Open, inside Login
    | Closing(a: AppId)                // Close, inside PoolRef.Drop
    | Entered(a: AppId)                // with, inside Login
    | Using(a: AppId, r: P.RefId)      // with, running its callback
    | Returning(a: AppId)              // with, inside PoolRef.Drop
    | Unloading(a: AppId)              // about to call Ref.Drop
    | Settling(a: AppId)               // inside Ref.Drop, after the swap

  /** `shutters` names, for each pool whose count reached zero, the instance whose Drop was the last
      (a history variable). */
  datatype State = State(
    p: P.State,
    c: M.Contents,
    apps: seq<App>,
    tasks: map<Thread, Task>,
    shutters: map<P.PoolId, AppId>)

  datatype Login = Login(slot: uint, pin: P.Digest, info: P.TokenInfo)

  datatype Event =
    | OpenModule(t: Thread, path: M.Path, loading: M.Loading)
    | NoToken(t: Thread)                        // GetToken failed
    | FoundToken(t: Thread, login: Login)       // Open goes on to Login
    | Configured(t: Thread)                     // SetConfig returns
    | Pool(e: P.Event)                          // a step inside Login or Drop, or of a session
    | LoginReturned(t: Thread)
    | CallClose(t: Thread, a: AppId)
    | DropReturned(t: Thread)
    | CallWith(t: Thread, a: AppId, login: Login)
    | WithDone(t: Thread)
    | CallFinalize(t: Thread, a: AppId)
    | MarkModule(t: Thread)
    | SettleModule(t: Thread)

  const EMPTY := State(P.Init(), M.Contents([], map[], []), [], map[], map[])

  function TaskOf(s: State, t: Thread): Task {
    if t in s.tasks then s.tasks[t] else Free
  }

  /** The steps a thread takes inside the session layer without its instance noticing. */
  predicate Inner(s: P.State, e: P.Event) {
    !e.CallLogin? && !e.CallDrop? && (e.Finish? ==> P.PcOf(s, e.t) == P.Returned(P.SessionDone))
  }

  predicate KnownApp(s: State, a: AppId) {
    a < |s.apps| && s.apps[a].mref < |s.c.refs| && s.c.refs[s.apps[a].mref].mod < |s.c.libs|
  }

  /** The Login call an instance makes: with its module, for a slot of that module's path. */
  function CallOf(s: State, a: AppId, login: Login): P.Call
    requires KnownApp(s, a)
  {
    var m := s.c.refs[s.apps[a].mref].mod;
    P.Call(a, m, P.Key(login.slot, s.c.libs[m].path), login.pin, login.info)
  }

  predicate Enabled(s: State, e: Event) {
    match e
    case OpenModule(t, _, _) => TaskOf(s, t).Free?
    case NoToken(t) => TaskOf(s, t).Opening? && TaskOf(s, t).a < |s.apps|
    case FoundToken(t, login) =>
      TaskOf(s, t).Opening? && KnownApp(s, TaskOf(s, t).a) &&
      P.Enabled(s.p, P.CallLogin(t, CallOf(s, TaskOf(s, t).a, login)))
    case Configured(t) => TaskOf(s, t).Opening? && TaskOf(s, t).a < |s.apps|
    case Pool(pe) => Inner(s.p, pe) && P.Enabled(s.p, pe)
    case LoginReturned(t) =>
      P.Enabled(s.p, P.Finish(t)) && (P.PcOf(s.p, t).result.LoggedIn? || P.PcOf(s.p, t).result.LoginFailed?) &&
      (TaskOf(s, t).LoggingIn? || TaskOf(s, t).Entered?) && TaskOf(s, t).a < |s.apps|
    case CallClose(t, a) =>
      TaskOf(s, t).Free? && a < |s.apps| && s.apps[a].pref.Some? && P.Enabled(s.p, P.CallDrop(t, s.apps[a].pref.value))
    case DropReturned(t) =>
      P.Enabled(s.p, P.Finish(t)) && P.PcOf(s.p, t).result.DropDone? &&
      (TaskOf(s, t).Closing? || TaskOf(s, t).Returning?) && TaskOf(s, t).a < |s.apps|
    case CallWith(t, a, login) =>
      TaskOf(s, t).Free? && KnownApp(s, a) && s.apps[a].stage.Serving? &&
      P.Enabled(s.p, P.CallLogin(t, CallOf(s, a, login)))
    case WithDone(t) => TaskOf(s, t).Using? && P.Enabled(s.p, P.CallDrop(t, TaskOf(s, t).r))
    case CallFinalize(t, a) => TaskOf(s, t).Free? && a < |s.apps| && s.apps[a].stage == Serving({})
    case MarkModule(t) => TaskOf(s, t).Unloading? && KnownApp(s, TaskOf(s, t).a)
    case SettleModule(t) => TaskOf(s, t).Settling? && KnownApp(s, TaskOf(s, t).a)
  }

  /** The last Drop of a pool is the one whose decrement leads to the shutdown. */
  function Shutters(s: State, pe: P.Event): map<P.PoolId, AppId>
    requires P.Enabled(s.p, pe)
  {
    var pc := P.PcOf(s.p, pe.t);
    if pe.SwapRefs? && pc.Dec? && P.PcOf(P.Apply(s.p, pe), pe.t).Work? then s.shutters[pc.p := pc.app] else s.shutters
  }

  function Turn(s: State, t: Thread, task: Task): State {
    s.(tasks := s.tasks[t := task])
  }

  function SetStage(s: State, a: AppId, stage: Stage): State
    requires a < |s.apps|
  {
    s.(apps := s.apps[a := s.apps[a].(stage := stage)])
  }

  /** The instance is done with its module; thread t goes on to drop the Ref. */
  function Unload(s: State, t: Thread, a: AppId): State
    requires a < |s.apps|
  {
    Turn(s.(apps := s.apps[a := s.apps[a].(stage := Left, dropper := Some(t))]), t, Unloading(a))
  }

  function Users(app: App): set<Thread> {
    if app.stage.Serving? then app.stage.users else {}
  }

  function AfterLogin(s: State, t: Thread): State
    requires Enabled(s, LoginReturned(t))
  {
    var task, result := TaskOf(s, t), P.PcOf(s.p, t).result;
    var s' := s.(p := P.Apply(s.p, P.Finish(t)));
    if task.LoggingIn? then
      if result.LoggedIn? then
        Turn(s'.(apps := s.apps[task.a := s.apps[task.a].(stage := Ready(result.r), pref := Some(result.r))]), t, Free)
      else Unload(s', t, task.a)
    else if result.LoggedIn? then Turn(s', t, Using(task.a, result.r))
    else Turn(SetStage(s', task.a, Serving(Users(s.apps[task.a]) - {t})), t, Free)
  }

  function AfterDrop(s: State, t: Thread): State
    requires Enabled(s, DropReturned(t))
  {
    var task := TaskOf(s, t);
    var s' := s.(p := P.Apply(s.p, P.Finish(t)));
    if task.Returning? then Turn(SetStage(s', task.a, Serving(Users(s.apps[task.a]) - {t})), t, Free)
    else if P.PcOf(s.p, t).result.clean then Unload(s', t, task.a)
    else if s.apps[task.a].stage == Leaving(t) then Turn(SetStage(s', task.a, Left), t, Free)
    else Turn(s', t, Free)
  }

  function Apply(s: State, e: Event): State
    requires Enabled(s, e)
  {
    match e
    case OpenModule(t, path, loading) =>
      var (c, r) := M.Open(s.c, path, loading);
      if r.None? then s.(c := c)
      else Turn(s.(c := c, apps := s.apps + [App(r.value, Entering(t), None, None)]), t, Opening(|s.apps|))
    case NoToken(t) => Unload(s, t, TaskOf(s, t).a)
    case FoundToken(t, login) =>
      var a := TaskOf(s, t).a;
      Turn(s.(p := P.Apply(s.p, P.CallLogin(t, CallOf(s, a, login)))), t, LoggingIn(a))
    case Configured(t) => Turn(SetStage(s, TaskOf(s, t).a, Serving({})), t, Free)
    case Pool(pe) => s.(p := P.Apply(s.p, pe), shutters := Shutters(s, pe))
    case LoginReturned(t) => AfterLogin(s, t)
    case CallClose(t, a) =>
      var r := s.apps[a].pref.value;
      var s' := Turn(s.(p := P.Apply(s.p, P.CallDrop(t, r))), t, Closing(a));
      if s.p.prefs[r].dropped then s' else SetStage(s', a, Leaving(t))
    case DropReturned(t) => AfterDrop(s, t)
    case CallWith(t, a, login) =>
      Turn(SetStage(s.(p := P.Apply(s.p, P.CallLogin(t, CallOf(s, a, login)))), a, Serving(Users(s.apps[a]) + {t})),
           t, Entered(a))
    case WithDone(t) =>
      var Using(a, r) := TaskOf(s, t);
      Turn(s.(p := P.Apply(s.p, P.CallDrop(t, r))), t, Returning(a))
    case CallFinalize(t, a) => Unload(s, t, a)
    case MarkModule(t) =>
      var a := TaskOf(s, t).a;
      var (c, first) := M.Mark(s.c, s.apps[a].mref);
      Turn(s.(c := c), t, if first then Settling(a) else Free)
    case SettleModule(t) =>
      var a := TaskOf(s, t).a;
      Turn(s.(c := M.Settle(s.c, s.apps[a].mref)), t, Free)
  }

  function Exec(s: State, es: seq<Event>): Option<State>
    decreases |es|
  {
    if es == [] then Some(s)
    else if Enabled(s, es[0]) then Exec(Apply(s, es[0]), es[1..])
    else None
  }

  // ---- The invariant ----------------------------------------------------------------------------------

  /** The module instance an application holds a Ref to. */
  function ModOf(s: State, a: AppId): Option<M.ModuleId> {
    if KnownApp(s, a) then Some(s.c.refs[s.apps[a].mref].mod) else None
  }

  /** The application whose module Ref a thread inside Login or Drop relies on. */
  function Sponsor(pc: P.Pc): Option<AppId> {
    match pc
    case Login(c, _, _) => Some(c.app)
    case Work(app, _, _) => Some(app)
    case Dec(app, _, _) => Some(app)
    case _ => None
  }

  /** The module thread pc uses: the caller's in Login, the pool's afterwards. */
  ghost predicate UsesModule(s: State, pc: P.Pc, m: M.ModuleId) {
    match pc
    case Login(c, _, _) => c.mod == m && m < |s.c.libs| && c.key.path == s.c.libs[m].path
    case Work(_, p, _) => p < |s.p.pools| && s.p.pools[p].mod == m
    case Dec(_, p, _) => p < |s.p.pools| && s.p.pools[p].mod == m
    case _ => true
  }

  /** The instance holds its Ref. */
  ghost predicate Active(s: State, a: AppId) {
    KnownApp(s, a) && !s.apps[a].stage.Left? && !s.c.refs[s.apps[a].mref].dropped
  }

  /** Inside Login, as opposed to inside Drop. */
  predicate Entry(pc: P.Pc) {
    pc.Login? ||
    (pc.Work? && (pc.work.Opening? || pc.work.LoggingIn? || pc.work.Unwinding? || pc.work.RollingBack? || pc.work.RollingDead?))
  }

  /** Thread t works for instance a: it opens it, closes it, or is one of the calls it serves. */
  ghost predicate WorksFor(s: State, t: Thread, a: AppId, entry: bool) {
    a < |s.apps| &&
    match s.apps[a].stage
    case Entering(u) => u == t && entry && TaskOf(s, t) == LoggingIn(a)
    case Leaving(u) => u == t && !entry && TaskOf(s, t) == Closing(a)
    case Serving(users) => t in users && TaskOf(s, t) == if entry then Entered(a) else Returning(a)
    case _ => false
  }

  ghost predicate ThreadOk(s: State, t: Thread) {
    var pc := P.PcOf(s.p, t);
    && (Sponsor(pc).Some? ==>
          var a := Sponsor(pc).value;
          Active(s, a) && WorksFor(s, t, a, Entry(pc)) && UsesModule(s, pc, ModOf(s, a).value))
    && (pc.Returned? && pc.result.LoggedIn? ==>
          var r := pc.result.r;
          r < |s.p.prefs| && !s.p.prefs[r].dropped && s.p.prefs[r].taker == t && WorksFor(s, t, s.p.prefs[r].app, true))
  }

  /** Who answers for an undropped PoolRef. */
  ghost predicate HeldBy(s: State, r: P.RefId, a: AppId, taker: Thread) {
    a < |s.apps| &&
    match s.apps[a].stage
    case Ready(q) => q == r && s.apps[a].pref == Some(r)
    case Entering(u) => u == taker && TaskOf(s, taker) == LoggingIn(a) && P.PcOf(s.p, taker) == P.Returned(P.LoggedIn(r))
    case Serving(users) =>
      taker in users &&
      (TaskOf(s, taker) == Using(a, r) ||
       (TaskOf(s, taker) == Entered(a) && P.PcOf(s.p, taker) == P.Returned(P.LoggedIn(r))))
    case _ => false
  }

  ghost predicate RefOk(s: State, r: P.RefId)
    requires r < |s.p.prefs|
  {
    var ref := s.p.prefs[r];
    !ref.dropped ==>
      Active(s, ref.app) && HeldBy(s, r, ref.app, ref.taker) &&
      ref.pool < |s.p.pools| && s.p.pools[ref.pool].mod == ModOf(s, ref.app).value
  }

  ghost predicate TaskOk(s: State, t: Thread) {
    match TaskOf(s, t)
    case Free => true
    case Opening(a) => a < |s.apps| && s.apps[a].stage == Entering(t)
    case LoggingIn(a) => a < |s.apps| && s.apps[a].stage == Entering(t)
    case Closing(a) => a < |s.apps| && s.apps[a].pref.Some? &&
                       (s.apps[a].stage == Leaving(t) || P.PcOf(s.p, t) == P.Returned(P.DropDone(false)))
    case Entered(a) => a < |s.apps| && t in Users(s.apps[a])
    case Using(a, r) => a < |s.apps| && t in Users(s.apps[a]) &&
                        r < |s.p.prefs| && s.p.prefs[r].app == a && s.p.prefs[r].taker == t
    case Returning(a) => a < |s.apps| && t in Users(s.apps[a])
    case Unloading(a) => KnownApp(s, a) && s.apps[a].dropper == Some(t) && !s.c.refs[s.apps[a].mref].dropped
    case Settling(a) => KnownApp(s, a) && s.apps[a].dropper == Some(t) && s.c.refs[s.apps[a].mref].dropped &&
                        !s.c.refs[s.apps[a].mref].settled
  }

  ghost predicate AppOk(s: State, a: AppId) {
    && KnownApp(s, a)
    && (!s.apps[a].stage.Left? ==> s.apps[a].dropper.None? && !s.c.refs[s.apps[a].mref].dropped)
    && (s.apps[a].dropper.None? ==> !s.c.refs[s.apps[a].mref].dropped)
    && (forall b :: 0 <= b < |s.apps| && s.apps[b].mref == s.apps[a].mref ==> b == a)
    && (s.apps[a].stage.Entering? || s.apps[a].stage.Serving? ==> s.apps[a].pref.None?)
    && (s.apps[a].pref.Some? ==>
          s.apps[a].pref.value < |s.p.prefs| && s.p.prefs[s.apps[a].pref.value].app == a &&
          (s.apps[a].stage.Ready? <==> !s.p.prefs[s.apps[a].pref.value].dropped))
    && (s.apps[a].stage.Ready? ==> s.apps[a].pref == Some(s.apps[a].stage.r))
    && (s.apps[a].stage.Entering? ==>
          TaskOf(s, s.apps[a].stage.t) == Opening(a) || TaskOf(s, s.apps[a].stage.t) == LoggingIn(a))
  }

  ghost predicate PoolOk(s: State, p: P.PoolId) {
    p < |s.p.pools| && s.p.pools[p].mod < |s.c.libs| && s.c.libs[s.p.pools[p].mod].path == s.p.pools[p].key.path
  }

  ghost predicate Glue(s: State) {
    && (forall t :: t in s.p.pcs ==> ThreadOk(s, t))
    && (forall r :: 0 <= r < |s.p.prefs| ==> RefOk(s, r))
    && (forall t :: t in s.tasks ==> TaskOk(s, t))
    && (forall a :: 0 <= a < |s.apps| ==> AppOk(s, a))
    && (forall p :: 0 <= p < |s.p.pools| ==> PoolOk(s, p))
  }

  ghost predicate Valid(s: State) {
    PI.Valid(s.p) && (!s.p.wrapped ==> M.Valid(s.c) && Glue(s))
  }
}
