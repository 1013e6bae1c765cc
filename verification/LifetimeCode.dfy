/** pkcs11KMS.Open and Close, and SetConfig, with and Finalize of the wrapper, statement by statement,
    while other threads and the session layer below run in between: every execution is a run of
    Lifetime.

    `others` is what happens between two statements or while the thread waits for Login, Drop or its
    callback: steps of other threads, and steps of the session layer, also this thread's own. A
    method returns false only if Login, Drop or the callback has not returned when they stop. */
module LifetimeCode {
  import opened Common
  import opened Lifetime
  import LS = LifetimeSteps
  import P = PoolProtocol
  import PS = PoolSteps
  import M = ModuleCache

  type Others = seq<seq<Event>>

  /** The steps in which instance methods of t itself moved on. */
  predicate Mine(t: Thread, e: Event) {
    !e.Pool? && e.t == t
  }

  function Own(es: seq<Event>, t: Thread): seq<Event> {
    if es == [] then []
    else if Mine(t, es[0]) then [es[0]] + Own(es[1..], t)
    else Own(es[1..], t)
  }

  /** There is a run from s to s' in which t itself takes exactly the steps `own`, in this order. */
  ghost predicate Does(s: State, t: Thread, own: seq<Event>, s': State) {
    exists es :: Run(s, t, es, own, s')
  }

  ghost predicate Run(s: State, t: Thread, es: seq<Event>, own: seq<Event>, s': State) {
    Exec(s, es) == Some(s') && Own(es, t) == own
  }

  ghost predicate Good(s: State) {
    !s.p.wrapped && exists es :: Exec(EMPTY, es) == Some(s)
  }

  lemma {:induction false} ExecConcat(s: State, es: seq<Event>, fs: seq<Event>)
    requires Exec(s, es).Some?
    ensures Exec(s, es + fs) == Exec(Exec(s, es).value, fs)
    decreases |es|
  {
    if es == [] {
      assert es + fs == fs;
    } else {
      assert (es + fs)[0] == es[0] && (es + fs)[1..] == es[1..] + fs;
      var s' := Apply(s, es[0]);
      ExecConcat(s', es[1..], fs);
      assert Exec(s, es) == Exec(s', es[1..]) && Exec(s, es + fs) == Exec(s', es[1..] + fs);
    }
  }

  lemma {:induction false} OwnConcat(es: seq<Event>, fs: seq<Event>, t: Thread)
    ensures Own(es + fs, t) == Own(es, t) + Own(fs, t)
  {
    if es == [] {
      assert es + fs == fs;
    } else {
      assert (es + fs)[0] == es[0] && (es + fs)[1..] == es[1..] + fs;
      OwnConcat(es[1..], fs, t);
    }
  }

  lemma Stays(s: State, t: Thread)
    ensures Does(s, t, [], s)
  {
    assert Run(s, t, [], [], s);
  }

  lemma Continues(s: State, t: Thread, own: seq<Event>, s': State, own': seq<Event>, s'': State)
    requires Does(s, t, own, s') && Does(s', t, own', s'')
    ensures Does(s, t, own + own', s'')
  {
    var es, fs :| Run(s, t, es, own, s') && Run(s', t, fs, own', s'');
    ExecConcat(s, es, fs);
    OwnConcat(es, fs, t);
    assert Run(s, t, es + fs, own + own', s'');
  }

  /** Others, or the session layer, move on. */
  lemma Aside(s: State, t: Thread, own: seq<Event>, s': State, s'': State)
    requires Does(s, t, own, s') && Does(s', t, [], s'')
    ensures Does(s, t, own, s'')
  {
    Continues(s, t, own, s', [], s'');
    assert own + [] == own;
  }

  lemma After(s: State, t: Thread, s': State, own: seq<Event>, s'': State)
    requires Does(s, t, [], s') && Does(s', t, own, s'')
    ensures Does(s, t, own, s'')
  {
    Continues(s, t, [], s', own, s'');
    assert [] + own == own;
  }

  lemma OneStep(s: State, t: Thread, e: Event)
    requires Good(s) && Enabled(s, e)
    ensures Does(s, t, if Mine(t, e) then [e] else [], Apply(s, e))
    ensures !Apply(s, e).p.wrapped ==> Good(Apply(s, e))
  {
    assert [e][1..] == [];
    assert Exec(s, [e]) == Exec(Apply(s, e), [e][1..]) == Some(Apply(s, e));
    assert Own([e], t) == if Mine(t, e) then [e] + Own([e][1..], t) else Own([e][1..], t);
    assert Run(s, t, [e], if Mine(t, e) then [e] else [], Apply(s, e));
    var es :| Exec(EMPTY, es) == Some(s);
    ExecConcat(EMPTY, es, [e]);
  }

  /** A step of t itself. */
  lemma Step(s0: State, t: Thread, own: seq<Event>, s: State, e: Event)
    requires Does(s0, t, own, s) && Good(s) && Enabled(s, e) && Mine(t, e)
    ensures Does(s0, t, own + [e], Apply(s, e))
    ensures !Apply(s, e).p.wrapped ==> Good(Apply(s, e))
  {
    OneStep(s, t, e);
    Continues(s0, t, own, s, [e], Apply(s, e));
  }

  lemma GoodValid(s: State)
    requires Good(s)
    ensures M.Valid(s.c) && Glue(s) && !s.p.panicked
  {
    var es :| Exec(EMPTY, es) == Some(s);
    LS.ExecValid(EMPTY, es);
  }

  /** The instance a thread works for is known. */
  lemma TaskApp(s: State, t: Thread)
    requires Good(s)
    ensures !s.p.panicked && (!TaskOf(s, t).Free? ==> KnownApp(s, TaskOf(s, t).a))
  {
    TaskKnown(s, t);
  }

  lemma UsedRef(s: State, t: Thread)
    requires Good(s) && TaskOf(s, t).Using?
    ensures TaskOf(s, t).r < |s.p.prefs|
  {
    TaskKnown(s, t);
  }

  /** What the call a thread is in says of its instance. */
  lemma TaskKnown(s: State, t: Thread)
    requires Good(s)
    ensures !s.p.panicked && TaskOk(s, t)
    ensures var task := TaskOf(s, t); !task.Free? ==> KnownApp(s, task.a)
  {
    GoodValid(s);
    assert t in s.tasks ==> TaskOk(s, t);
    var task := TaskOf(s, t);
    if !task.Free? {
      assert AppOk(s, task.a);
    }
  }

  function ThreadOf(e: Event): Thread {
    if e.Pool? then e.e.t else e.t
  }

  predicate AtRest(pc: P.Pc) {
    pc.Idle? || (pc.Returned? && !pc.result.SessionDone?)
  }

  /** The event is another thread's, or one of the session layer for t: inside Login or Drop, or
      inside the callback of `with`, which may use sessions. */
  predicate Foreign(s: State, t: Thread, e: Event) {
    ThreadOf(e) != t || (e.Pool? && (!AtRest(P.PcOf(s.p, t)) || TaskOf(s, t).Using?))
  }

  lemma ForeignKeeps(s: State, t: Thread, e: Event)
    requires Enabled(s, e) && Foreign(s, t, e)
    ensures TaskOf(Apply(s, e), t) == TaskOf(s, t)
    ensures AtRest(P.PcOf(s.p, t)) && !TaskOf(s, t).Using? ==> P.PcOf(Apply(s, e).p, t) == P.PcOf(s.p, t)
    ensures |s.apps| <= |Apply(s, e).apps|
  {
    if e.Pool? {
      ForeignPool(s, t, e);
    } else {
      ForeignElse(s, t, e);
    }
  }

  lemma ForeignPool(s: State, t: Thread, e: Event)
    requires Enabled(s, e) && Foreign(s, t, e) && e.Pool?
    ensures TaskOf(Apply(s, e), t) == TaskOf(s, t)
    ensures AtRest(P.PcOf(s.p, t)) && !TaskOf(s, t).Using? ==> P.PcOf(Apply(s, e).p, t) == P.PcOf(s.p, t)
  {
    if ThreadOf(e) != t {
      PS.OwnThread(s.p, e.e, t);
    }
  }

  lemma ForeignElse(s: State, t: Thread, e: Event)
    requires Enabled(s, e) && Foreign(s, t, e) && !e.Pool?
    ensures TaskOf(Apply(s, e), t) == TaskOf(s, t)
    ensures P.PcOf(Apply(s, e).p, t) == P.PcOf(s.p, t)
  {
    LS.PoolsStep(s, e);
    if LS.InnerEvent(s, e).Some? {
      PS.OwnThread(s.p, LS.InnerEvent(s, e).value, t);
    }
    OnlyOwnTask(s, t, e);
  }

  lemma OnlyOwnTask(s: State, t: Thread, e: Event)
    requires Enabled(s, e) && !e.Pool? && e.t != t
    ensures TaskOf(Apply(s, e), t) == TaskOf(s, t)
  {
  }

  lemma PauseStep(s0: State, t: Thread, s: State, e: Event)
    requires Does(s0, t, [], s) && Good(s) && Enabled(s, e) && Foreign(s, t, e) && !Apply(s, e).p.wrapped
    ensures Does(s0, t, [], Apply(s, e)) && Good(Apply(s, e)) && TaskOf(Apply(s, e), t) == TaskOf(s, t)
    ensures AtRest(P.PcOf(s.p, t)) && !TaskOf(s, t).Using? ==> P.PcOf(Apply(s, e).p, t) == P.PcOf(s.p, t)
    ensures |s.apps| <= |Apply(s, e).apps|
  {
    OneStep(s, t, e);
    Aside(s0, t, [], s, Apply(s, e));
    ForeignKeeps(s, t, e);
  }

  /** Login, or else Drop, has returned. */
  predicate Came(pc: P.Pc, drop: bool) {
    pc.Returned? && if drop then pc.result.DropDone? else pc.result.LoggedIn? || pc.result.LoginFailed?
  }

  /** The thread waits for Login, for its callback or for Drop to return. */
  predicate Waits(s: State, t: Thread) {
    match TaskOf(s, t)
    case LoggingIn(_) => !Came(P.PcOf(s.p, t), false)
    case Entered(_) => !Came(P.PcOf(s.p, t), false)
    case Using(_, _) => !P.PcOf(s.p, t).Idle?
    case Closing(_) => !Came(P.PcOf(s.p, t), true)
    case Returning(_) => !Came(P.PcOf(s.p, t), true)
    case _ => false
  }

  /** The two steps of Ref.Drop. */
  function Dropped(t: Thread): seq<Event> {
    [MarkModule(t)] + [SettleModule(t)]
  }

  /** Nothing of the instance uses its module any more, and its Ref came off the count. */
  predicate Released(s: State, a: AppId, t: Thread) {
    KnownApp(s, a) && s.apps[a].stage.Left? && s.apps[a].dropper == Some(t) &&
    s.c.refs[s.apps[a].mref].dropped && s.c.refs[s.apps[a].mref].settled
  }

  /** The instance holds its Ref. */
  predicate Holds(s: State, a: AppId) {
    KnownApp(s, a) && !s.c.refs[s.apps[a].mref].dropped
  }

  lemma SettlesOwn(s: State, t: Thread)
    requires Good(s) && Enabled(s, SettleModule(t))
    ensures Released(Apply(s, SettleModule(t)), TaskOf(s, t).a, t)
  {
    GoodValid(s);
    var a := TaskOf(s, t).a;
    assert TaskOk(s, t) && AppOk(s, a);
  }

  lemma ServingHolds(s: State, a: AppId)
    requires Good(s) && a < |s.apps| && !s.apps[a].stage.Left?
    ensures Holds(s, a)
  {
    GoodValid(s);
    assert AppOk(s, a);
  }

  // ---- How the operations end --------------------------------------------------------------------------

  /** Login of Open, from its call on: it is still running; or the instance is a KMS with its pool and
      its Ref; or the Ref is dropped. */
  ghost predicate LoggedIn(s: State, s': State, t: Thread, a: AppId, r: Option<AppId>, done: bool) {
    if !done then r.None? && Does(s, t, [], s') && TaskOf(s', t) == LoggingIn(a) && Waits(s', t)
    else if r.Some? then
      r.value == a && Does(s, t, [LoginReturned(t)], s') && TaskOf(s', t).Free? &&
      Holds(s', a) && s'.apps[a].stage.Ready? && s'.apps[a].pref == Some(s'.apps[a].stage.r)
    else Does(s, t, [LoginReturned(t)] + Dropped(t), s') && TaskOf(s', t).Free? && Released(s', a, t)
  }

  /** Open once the module is open. */
  ghost predicate Opened(s: State, s': State, t: Thread, a: AppId, login: Option<Login>, r: Option<AppId>, done: bool) {
    match login
    case None =>
      done && r.None? && Does(s, t, [NoToken(t)] + Dropped(t), s') && TaskOf(s', t).Free? && Released(s', a, t)
    case Some(l) =>
      exists mid :: Calls(s, t, FoundToken(t, l), mid) && LoggedIn(Apply(mid, FoundToken(t, l)), s', t, a, r, done)
  }

  ghost predicate Calls(s: State, t: Thread, e: Event, mid: State) {
    Does(s, t, [], mid) && Enabled(mid, e)
  }

  ghost predicate ConfiguredBy(s: State, s': State, t: Thread, a: AppId, found: bool, r: Option<AppId>) {
    && TaskOf(s', t).Free?
    && if found then
         r == Some(a) && Does(s, t, [Configured(t)], s') && Holds(s', a) && s'.apps[a].stage == Serving({})
       else
         r.None? && Does(s, t, [NoToken(t)] + Dropped(t), s') && Released(s', a, t)
  }

  /** Close from its call of the pool's Drop on. */
  ghost predicate Closed(s: State, s': State, t: Thread, a: AppId, done: bool, clean: bool) {
    if !done then !clean && Does(s, t, [], s') && TaskOf(s', t) == Closing(a) && Waits(s', t)
    else
      Does(s, t, [DropReturned(t)] + if clean then Dropped(t) else [], s') && TaskOf(s', t).Free? &&
      (clean ==> Released(s', a, t))
  }

  /** The callback and the deferred Drop. */
  ghost predicate CalledBack(s: State, s': State, t: Thread, a: AppId, done: bool) {
    if done then Does(s, t, [WithDone(t)] + [DropReturned(t)], s') && TaskOf(s', t).Free?
    else
      && Waits(s', t)
      && if TaskOf(s', t).Using? then TaskOf(s', t).a == a && Does(s, t, [], s')
         else TaskOf(s', t) == Returning(a) && Does(s, t, [WithDone(t)] + [], s')
  }

  /** with from its call of Login on. */
  ghost predicate Served(s: State, s': State, t: Thread, a: AppId, done: bool, entered: bool) {
    if !entered then
      if done then Does(s, t, [LoginReturned(t)], s') && TaskOf(s', t).Free?
      else Does(s, t, [], s') && TaskOf(s', t) == Entered(a) && Waits(s', t)
    else
      exists mid :: Calls(s, t, LoginReturned(t), mid) && CalledBack(Apply(mid, LoginReturned(t)), s', t, a, done)
  }

  lemma LoggedInLater(s: State, s': State, s'': State, t: Thread, a: AppId, r: Option<AppId>)
    requires Does(s, t, [], s') && LoggedIn(s', s'', t, a, r, true)
    ensures LoggedIn(s, s'', t, a, r, true)
  {
    if r.Some? {
      After(s, t, s', [LoginReturned(t)], s'');
    } else {
      After(s, t, s', [LoginReturned(t)] + Dropped(t), s'');
    }
  }

  lemma ServedLater(s: State, s': State, s'': State, t: Thread, a: AppId, done: bool, entered: bool)
    requires Does(s, t, [], s') && Served(s', s'', t, a, done, entered)
    ensures Served(s, s'', t, a, done, entered)
  {
    if entered {
      var mid :| Calls(s', t, LoginReturned(t), mid) && CalledBack(Apply(mid, LoginReturned(t)), s'', t, a, done);
      Aside(s, t, [], s', mid);
      assert Calls(s, t, LoginReturned(t), mid);
    } else {
      After(s, t, s', if done then [LoginReturned(t)] else [], s'');
    }
  }

  lemma DropMoves(s: State, t: Thread)
    requires Enabled(s, DropReturned(t))
    ensures var s', task := Apply(s, DropReturned(t)), TaskOf(s, t);
            t in s'.tasks && s'.p.wrapped == s.p.wrapped &&
            TaskOf(s', t) == if task.Closing? && P.PcOf(s.p, t).result.clean then Unloading(task.a) else Free
  {
  }

  lemma CameEnabled(s: State, t: Thread)
    requires !s.p.panicked && (TaskOf(s, t).Closing? || TaskOf(s, t).Returning?) && TaskOf(s, t).a < |s.apps|
    requires Came(P.PcOf(s.p, t), true)
    ensures Enabled(s, DropReturned(t))
  {
  }

  lemma DropStep(s: State, t: Thread)
    requires Good(s) && (TaskOf(s, t).Closing? || TaskOf(s, t).Returning?) && Came(P.PcOf(s.p, t), true)
    ensures Enabled(s, DropReturned(t))
    ensures var s', task := Apply(s, DropReturned(t)), TaskOf(s, t);
            Does(s, t, [DropReturned(t)], s') && Good(s') && t in s'.tasks &&
            TaskOf(s', t) == if task.Closing? && P.PcOf(s.p, t).result.clean then Unloading(task.a) else Free
  {
    TaskApp(s, t);
    CameEnabled(s, t);
    OneStep(s, t, DropReturned(t));
    DropMoves(s, t);
  }

  lemma CallbackMoves(s: State, t: Thread)
    requires Enabled(s, WithDone(t))
    ensures var s' := Apply(s, WithDone(t)); s'.p.wrapped == s.p.wrapped && TaskOf(s', t) == Returning(TaskOf(s, t).a)
  {
  }

  class Instances {
    var p: P.State
    var c: M.Contents
    var apps: seq<App>
    var tasks: map<Thread, Task>   // the call each thread is in
    var shutters: map<P.PoolId, AppId>

    function Now(): State
      reads this
    {
      State(p, c, apps, tasks, shutters)
    }

    constructor ()
      ensures Now() == EMPTY && Good(Now())
    {
      assert Exec(EMPTY, []) == Some(EMPTY);
      p, c, apps, tasks, shutters := P.Init(), M.Contents([], map[], []), [], map[], map[];
    }

    method Become(s: State)
      modifies this
      ensures Now() == s
    {
      p, c, apps, tasks, shutters := s.p, s.c, s.apps, s.tasks, s.shutters;
    }

    method Pause(t: Thread, others: Others) returns (rest: Others)
      requires Good(Now())
      modifies this
      ensures Good(Now()) && Does(old(Now()), t, [], Now()) && TaskOf(Now(), t) == old(TaskOf(Now(), t))
      ensures |old(apps)| <= |apps|
      ensures AtRest(P.PcOf(old(p), t)) && !old(TaskOf(Now(), t)).Using? ==> P.PcOf(p, t) == P.PcOf(old(p), t)
      ensures if others == [] then rest == [] else |rest| < |others|
    {
      Stays(Now(), t);
      if others == [] {
        return others;
      }
      for i := 0 to |others[0]|
        invariant Good(Now()) && Does(old(Now()), t, [], Now()) && TaskOf(Now(), t) == old(TaskOf(Now(), t))
        invariant |old(apps)| <= |apps|
        invariant AtRest(P.PcOf(old(p), t)) && !old(TaskOf(Now(), t)).Using? ==> P.PcOf(p, t) == P.PcOf(old(p), t)
      {
        var e := others[0][i];
        if Foreign(Now(), t, e) && Enabled(Now(), e) && !Apply(Now(), e).p.wrapped {
          PauseStep(old(Now()), t, Now(), e);
          var s := Apply(Now(), e);
          Become(s);
        }
      }
      rest := others[1..];
    }

    // ---- The sections --------------------------------------------------------------------------------

    method OpenLibrary(t: Thread, path: M.Path, loading: M.Loading) returns (ok: bool)
      requires Good(Now()) && Enabled(Now(), OpenModule(t, path, loading))
      modifies this
      ensures Now() == Apply(old(Now()), OpenModule(t, path, loading))
      ensures ok <==> path in old(c).cache || loading.Loads?
      ensures if ok then
                |apps| == |old(apps)| + 1 && Holds(Now(), |old(apps)|) && TaskOf(Now(), t) == Opening(|old(apps)|) &&
                M.Serves(old(c), c, path, c.refs[apps[|old(apps)|].mref].mod) && p == old(p)
              else Now() == old(Now())
    {
      GoodValid(Now());
      M.OpenValid(c, path, loading);
      var (contents, r) := M.Open(c, path, loading);
      c := contents;
      if r.None? {
        return false;
      }
      tasks := tasks[t := Opening(|apps|)];
      apps := apps + [App(r.value, Entering(t), None, None)];
      return true;
    }

    method Abandon(t: Thread, a: AppId)
      requires a < |apps|
      modifies this
      ensures Now() == Unload(old(Now()), t, a)
    {
      apps := apps[a := apps[a].(stage := Left, dropper := Some(t))];
      tasks := tasks[t := Unloading(a)];
    }

    method CallPoolLogin(t: Thread, login: Login)
      requires Enabled(Now(), FoundToken(t, login))
      modifies this
      ensures Now() == Apply(old(Now()), FoundToken(t, login))
    {
      var a := tasks[t].a;
      p := P.Apply(p, P.CallLogin(t, CallOf(Now(), a, login)));
      tasks := tasks[t := LoggingIn(a)];
    }

    method TakeLogin(t: Thread)
      requires Enabled(Now(), LoginReturned(t))
      modifies this
      ensures Now() == Apply(old(Now()), LoginReturned(t))
    {
      var task, result := tasks[t], P.PcOf(p, t).result;
      p := P.Apply(p, P.Finish(t));
      var a := task.a;
      if task.LoggingIn? {
        if result.LoggedIn? {
          apps := apps[a := apps[a].(stage := Ready(result.r), pref := Some(result.r))];
          tasks := tasks[t := Free];
        } else {
          Abandon(t, a);
        }
      } else if result.LoggedIn? {
        tasks := tasks[t := Using(a, result.r)];
      } else {
        apps := apps[a := apps[a].(stage := Serving(Users(apps[a]) - {t}))];
        tasks := tasks[t := Free];
      }
    }

    method CallPoolDrop(t: Thread, a: AppId)
      requires Enabled(Now(), CallClose(t, a))
      modifies this
      ensures Now() == Apply(old(Now()), CallClose(t, a))
    {
      var r := apps[a].pref.value;
      var first := !p.prefs[r].dropped;
      p := P.Apply(p, P.CallDrop(t, r));
      tasks := tasks[t := Closing(a)];
      if first {
        apps := apps[a := apps[a].(stage := Leaving(t))];
      }
    }

    method TakeDrop(t: Thread)
      requires Enabled(Now(), DropReturned(t))
      modifies this
      ensures Now() == Apply(old(Now()), DropReturned(t))
    {
      var task, clean := tasks[t], P.PcOf(p, t).result.clean;
      p := P.Apply(p, P.Finish(t));
      var a := task.a;
      if task.Returning? {
        apps := apps[a := apps[a].(stage := Serving(Users(apps[a]) - {t}))];
        tasks := tasks[t := Free];
      } else if clean {
        Abandon(t, a);
      } else {
        if apps[a].stage == Leaving(t) {
          apps := apps[a := apps[a].(stage := Left)];
        }
        tasks := tasks[t := Free];
      }
    }

    method EnterWith(t: Thread, a: AppId, login: Login)
      requires Enabled(Now(), CallWith(t, a, login))
      modifies this
      ensures Now() == Apply(old(Now()), CallWith(t, a, login))
    {
      p := P.Apply(p, P.CallLogin(t, CallOf(Now(), a, login)));
      apps := apps[a := apps[a].(stage := Serving(Users(apps[a]) + {t}))];
      tasks := tasks[t := Entered(a)];
    }

    method EndCallback(t: Thread)
      requires Enabled(Now(), WithDone(t))
      modifies this
      ensures Now() == Apply(old(Now()), WithDone(t))
    {
      var Using(a, r) := tasks[t];
      p := P.Apply(p, P.CallDrop(t, r));
      tasks := tasks[t := Returning(a)];
    }

    method MarkRef(t: Thread)
      requires Enabled(Now(), MarkModule(t))
      modifies this
      ensures Now() == Apply(old(Now()), MarkModule(t))
    {
      var a := tasks[t].a;
      var (contents, first) := M.Mark(c, apps[a].mref);
      c := contents;
      tasks := tasks[t := if first then Settling(a) else Free];
    }

    method SettleRef(t: Thread)
      requires Enabled(Now(), SettleModule(t))
      modifies this
      ensures Now() == Apply(old(Now()), SettleModule(t))
    {
      c := M.Settle(c, apps[tasks[t].a].mref);
      tasks := tasks[t := Free];
    }

    // ---- The operations --------------------------------------------------------------------------------

    /** The swap of Ref.Drop, which this instance wins. */
    method Mark(t: Thread, a: AppId, others: Others) returns (rest: Others)
      requires Good(Now()) && TaskOf(Now(), t) == Unloading(a)
      modifies this
      ensures Good(Now()) && Does(old(Now()), t, [MarkModule(t)], Now()) && TaskOf(Now(), t) == Settling(a)
    {
      rest := Pause(t, others);
      ghost var before := Now();
      TaskKnown(before, t);
      OneStep(before, t, MarkModule(t));
      MarkRef(t);
      After(old(Now()), t, before, [MarkModule(t)], Now());
    }

    /** The rest of Ref.Drop. */
    method Settle(t: Thread, a: AppId, others: Others) returns (rest: Others)
      requires Good(Now()) && TaskOf(Now(), t) == Settling(a)
      modifies this
      ensures Good(Now()) && Does(old(Now()), t, [SettleModule(t)], Now())
      ensures TaskOf(Now(), t).Free? && Released(Now(), a, t)
    {
      rest := Pause(t, others);
      ghost var before := Now();
      TaskApp(before, t);
      OneStep(before, t, SettleModule(t));
      SettlesOwn(before, t);
      SettleRef(t);
      After(old(Now()), t, before, [SettleModule(t)], Now());
    }

    /** mod.Drop() of an instance that is done with its module. */
    method DropModule(t: Thread, a: AppId, others: Others) returns (rest: Others)
      requires Good(Now()) && TaskOf(Now(), t) == Unloading(a)
      modifies this
      ensures Good(Now()) && Does(old(Now()), t, Dropped(t), Now())
      ensures TaskOf(Now(), t).Free? && Released(Now(), a, t)
    {
      rest := Mark(t, a, others);
      ghost var before := Now();
      rest := Settle(t, a, rest);
      Continues(old(Now()), t, [MarkModule(t)], before, [SettleModule(t)], Now());
    }

    /** Waits for Login or Drop to return. */
    method Await(t: Thread, drop: bool, others: Others) returns (done: bool, rest: Others)
      requires Good(Now()) && !TaskOf(Now(), t).Using?
      modifies this
      ensures Good(Now()) && Does(old(Now()), t, [], Now()) && TaskOf(Now(), t) == old(TaskOf(Now(), t))
      ensures done <==> Came(P.PcOf(p, t), drop)
      ensures done || rest == []
    {
      Stays(Now(), t);
      rest := others;
      while rest != [] && !Came(P.PcOf(p, t), drop)
        invariant Good(Now()) && Does(old(Now()), t, [], Now()) && TaskOf(Now(), t) == old(TaskOf(Now(), t))
        decreases |rest|
      {
        ghost var before := Now();
        rest := Pause(t, rest);
        Aside(old(Now()), t, [], before, Now());
      }
      done := Came(P.PcOf(p, t), drop);
    }

    /** pkcs11KMS.Open; `login` is None if GetToken fails. If the module opens, the new instance ends as an
        open KMS that holds its module Ref, exactly if Login succeeds, or with the Ref dropped again. */
    method OpenKMS(t: Thread, path: M.Path, loading: M.Loading, login: Option<Login>, others: Others)
      returns (r: Option<AppId>, done: bool, rest: Others)
      requires Good(Now()) && Enabled(Now(), OpenModule(t, path, loading)) && P.PcOf(p, t).Idle?
      modifies this
      ensures Good(Now())
      ensures path !in old(c).cache && !loading.Loads? ==> done && r.None? && Now() == old(Now())
      ensures path in old(c).cache || loading.Loads? ==>
        Opened(Apply(old(Now()), OpenModule(t, path, loading)), Now(), t, |old(apps)|, login, r, done)
      ensures done || rest == []
    {
      r, rest := None, others;
      var a := |apps|;
      OneStep(Now(), t, OpenModule(t, path, loading));
      var ok := OpenLibrary(t, path, loading);
      if !ok {
        return r, true, rest;
      }
      ghost var loaded := Now();
      rest := Pause(t, rest);
      TaskApp(Now(), t);
      if login.None? {
        rest := GiveUp(t, a, rest, loaded);
        return r, true, rest;
      }
      ghost var found := Now();
      OneStep(found, t, FoundToken(t, login.value));
      CallPoolLogin(t, login.value);
      r, done, rest := FinishOpen(t, a, rest);
      assert Calls(loaded, t, FoundToken(t, login.value), found);
    }

    /** GetToken failed. */
    method GiveUp(t: Thread, a: AppId, others: Others, ghost loaded: State) returns (rest: Others)
      requires Good(Now()) && TaskOf(Now(), t) == Opening(a) && Does(loaded, t, [], Now())
      modifies this
      ensures Good(Now()) && Does(loaded, t, [NoToken(t)] + Dropped(t), Now())
      ensures TaskOf(Now(), t).Free? && Released(Now(), a, t)
    {
      TaskApp(Now(), t);
      Step(loaded, t, [], Now(), NoToken(t));
      assert [] + [NoToken(t)] == [NoToken(t)];
      Abandon(t, a);
      ghost var abandoned := Now();
      rest := DropModule(t, a, others);
      Continues(loaded, t, [NoToken(t)], abandoned, Dropped(t), Now());
    }

    method FinishOpen(t: Thread, a: AppId, others: Others) returns (r: Option<AppId>, done: bool, rest: Others)
      requires Good(Now()) && TaskOf(Now(), t) == LoggingIn(a)
      modifies this
      ensures Good(Now()) && LoggedIn(old(Now()), Now(), t, a, r, done)
      ensures done || rest == []
    {
      r := None;
      done, rest := Await(t, false, others);
      if done {
        ghost var before := Now();
        r, rest := EndOpen(t, a, rest);
        LoggedInLater(old(Now()), before, Now(), t, a, r);
      }
    }

    method EndOpen(t: Thread, a: AppId, others: Others) returns (r: Option<AppId>, rest: Others)
      requires Good(Now()) && TaskOf(Now(), t) == LoggingIn(a) && Came(P.PcOf(p, t), false)
      modifies this
      ensures Good(Now()) && LoggedIn(old(Now()), Now(), t, a, r, true)
      ensures r.Some? <==> P.PcOf(old(p), t).result.LoggedIn?
    {
      r, rest := None, others;
      TaskApp(Now(), t);
      OneStep(Now(), t, LoginReturned(t));
      TakeLogin(t);
      if tasks[t].Free? {
        r := Some(a);
        ServingHolds(Now(), a);
      } else {
        ghost var failed := Now();
        rest := DropModule(t, a, rest);
        Continues(old(Now()), t, [LoginReturned(t)], failed, Dropped(t), Now());
      }
    }

    /** pkcs11KMS.Close: the pool first, then the module, and the module not at all if the pool's Drop
        failed; `clean` tells whether it returned without an error. */
    method CloseKMS(t: Thread, a: AppId, others: Others) returns (done: bool, clean: bool, rest: Others)
      requires Good(Now()) && Enabled(Now(), CallClose(t, a))
      modifies this
      ensures Good(Now()) && Closed(Apply(old(Now()), CallClose(t, a)), Now(), t, a, done, clean)
      ensures done || rest == []
    {
      OneStep(Now(), t, CallClose(t, a));
      CallPoolDrop(t, a);
      clean := false;
      ghost var called := Now();
      done, rest := Await(t, true, others);
      if done {
        ghost var before := Now();
        clean, rest := FinishClose(t, a, rest);
        After(called, t, before, [DropReturned(t)] + if clean then Dropped(t) else [], Now());
      }
    }

    method FinishClose(t: Thread, a: AppId, others: Others) returns (clean: bool, rest: Others)
      requires Good(Now()) && TaskOf(Now(), t) == Closing(a) && Came(P.PcOf(p, t), true)
      modifies this
      ensures Good(Now()) && Does(old(Now()), t, [DropReturned(t)] + if clean then Dropped(t) else [], Now())
      ensures clean == P.PcOf(old(p), t).result.clean
      ensures TaskOf(Now(), t).Free? && (clean ==> Released(Now(), a, t))
    {
      rest := others;
      clean := LeaveDrop(t);
      assert [DropReturned(t)] + [] == [DropReturned(t)];
      if clean {
        ghost var dropped := Now();
        rest := DropModule(t, a, rest);
        Continues(old(Now()), t, [DropReturned(t)], dropped, Dropped(t), Now());
      }
    }

    /** The pool's Drop has returned; the module is dropped only if Close got no error from it. */
    method LeaveDrop(t: Thread) returns (unload: bool)
      requires Good(Now()) && (TaskOf(Now(), t).Closing? || TaskOf(Now(), t).Returning?) && Came(P.PcOf(p, t), true)
      modifies this
      ensures Good(Now()) && Does(old(Now()), t, [DropReturned(t)], Now())
      ensures unload <==> old(TaskOf(Now(), t)).Closing? && P.PcOf(old(p), t).result.clean
      ensures TaskOf(Now(), t) == if unload then Unloading(old(TaskOf(Now(), t)).a) else Free
    {
      DropStep(Now(), t);
      TakeDrop(t);
      unload := tasks[t].Unloading?;
    }

    /** The fields of the wrapper are set. */
    method Configure(t: Thread, a: AppId, ghost loaded: State)
      requires Good(Now()) && TaskOf(Now(), t) == Opening(a) && Does(loaded, t, [], Now())
      modifies this
      ensures Good(Now()) && ConfiguredBy(loaded, Now(), t, a, true, Some(a))
    {
      TaskApp(Now(), t);
      ghost var before := Now();
      OneStep(before, t, Configured(t));
      apps := apps[a := apps[a].(stage := Serving({}))];
      tasks := tasks[t := Free];
      After(loaded, t, before, [Configured(t)], Now());
      ServingHolds(Now(), a);
    }

    /** pkcs11Wrapper.SetConfig: the wrapper keeps its module Ref exactly on success. */
    method SetConfig(t: Thread, path: M.Path, loading: M.Loading, found: bool, others: Others)
      returns (r: Option<AppId>, rest: Others)
      requires Good(Now()) && Enabled(Now(), OpenModule(t, path, loading))
      modifies this
      ensures Good(Now())
      ensures path !in old(c).cache && !loading.Loads? ==> r.None? && Now() == old(Now())
      ensures path in old(c).cache || loading.Loads? ==>
        ConfiguredBy(Apply(old(Now()), OpenModule(t, path, loading)), Now(), t, |old(apps)|, found, r)
    {
      r, rest := None, others;
      OneStep(Now(), t, OpenModule(t, path, loading));
      var ok := OpenLibrary(t, path, loading);
      if !ok {
        return;
      }
      ghost var loaded := Now();
      rest := Pause(t, rest);
      TaskApp(Now(), t);
      var a := tasks[t].a;
      if found {
        Configure(t, a, loaded);
        return Some(a), rest;
      }
      rest := GiveUp(t, a, rest, loaded);
    }

    /** pkcs11Wrapper.with: a pool of its own for the time of the callback; `entered` tells whether the
        callback was reached. */
    method With(t: Thread, a: AppId, login: Login, others: Others) returns (done: bool, entered: bool, rest: Others)
      requires Good(Now()) && Enabled(Now(), CallWith(t, a, login))
      modifies this
      ensures Good(Now()) && Served(Apply(old(Now()), CallWith(t, a, login)), Now(), t, a, done, entered)
      ensures done || rest == []
    {
      OneStep(Now(), t, CallWith(t, a, login));
      EnterWith(t, a, login);
      ghost var called := Now();
      entered := false;
      done, rest := Await(t, false, others);
      if done {
        ghost var before := Now();
        done, entered, rest := FinishWith(t, a, rest);
        ServedLater(called, before, Now(), t, a, done, entered);
      }
    }

    method FinishWith(t: Thread, a: AppId, others: Others) returns (done: bool, entered: bool, rest: Others)
      requires Good(Now()) && TaskOf(Now(), t) == Entered(a) && Came(P.PcOf(p, t), false)
      modifies this
      ensures Good(Now()) && Served(old(Now()), Now(), t, a, done, entered) && (done || entered)
      ensures entered <==> P.PcOf(old(p), t).result.LoggedIn?
      ensures done || rest == []
    {
      rest, done, entered := others, true, false;
      Stays(Now(), t);
      TaskApp(Now(), t);
      Step(Now(), t, [], Now(), LoginReturned(t));
      assert [] + [LoginReturned(t)] == [LoginReturned(t)];
      TakeLogin(t);
      if tasks[t].Using? {
        entered := true;
        done, rest := Callback(t, a, rest);
        assert Calls(old(Now()), t, LoginReturned(t), old(Now()));
      }
    }

    /** The callback, with the sessions it uses, and the deferred Drop. */
    method Callback(t: Thread, a: AppId, others: Others) returns (done: bool, rest: Others)
      requires Good(Now()) && TaskOf(Now(), t).Using? && TaskOf(Now(), t).a == a
      modifies this
      ensures Good(Now()) && CalledBack(old(Now()), Now(), t, a, done)
      ensures done || rest == []
    {
      rest := Pause(t, others);
      while rest != [] && !P.PcOf(p, t).Idle?
        invariant Good(Now()) && Does(old(Now()), t, [], Now()) && TaskOf(Now(), t) == old(TaskOf(Now(), t))
        decreases |rest|
      {
        ghost var before := Now();
        rest := Pause(t, rest);
        Aside(old(Now()), t, [], before, Now());
      }
      if !P.PcOf(p, t).Idle? {
        return false, rest;
      }
      ghost var before := Now();
      done, rest := DropPool(t, a, rest);
      After(old(Now()), t, before, [WithDone(t)] + if done then [DropReturned(t)] else [], Now());
    }

    /** The deferred Drop of `with`; its error is only logged. */
    method DropPool(t: Thread, a: AppId, others: Others) returns (done: bool, rest: Others)
      requires Good(Now()) && TaskOf(Now(), t).Using? && TaskOf(Now(), t).a == a && P.PcOf(p, t).Idle?
      modifies this
      ensures Good(Now()) && Does(old(Now()), t, [WithDone(t)] + if done then [DropReturned(t)] else [], Now())
      ensures if done then TaskOf(Now(), t).Free? else TaskOf(Now(), t) == Returning(a) && Waits(Now(), t)
      ensures done || rest == []
    {
      TaskApp(Now(), t);
      UsedRef(Now(), t);
      OneStep(Now(), t, WithDone(t));
      CallbackMoves(Now(), t);
      EndCallback(t);
      ghost var before := Now();
      done, rest := AwaitDrop(t, others);
      Continues(old(Now()), t, [WithDone(t)], before, if done then [DropReturned(t)] else [], Now());
    }

    method AwaitDrop(t: Thread, others: Others) returns (done: bool, rest: Others)
      requires Good(Now()) && TaskOf(Now(), t).Returning?
      modifies this
      ensures Good(Now()) && Does(old(Now()), t, if done then [DropReturned(t)] else [], Now())
      ensures if done then TaskOf(Now(), t).Free? else TaskOf(Now(), t) == old(TaskOf(Now(), t)) && Waits(Now(), t)
      ensures done || rest == []
    {
      done, rest := Await(t, true, others);
      if done {
        ghost var before := Now();
        var _ := LeaveDrop(t);
        After(old(Now()), t, before, [DropReturned(t)], Now());
      }
    }

    /** pkcs11Wrapper.Finalize. */
    method Finalize(t: Thread, a: AppId, others: Others) returns (rest: Others)
      requires Good(Now()) && Enabled(Now(), CallFinalize(t, a))
      modifies this
      ensures Good(Now()) && Does(old(Now()), t, [CallFinalize(t, a)] + Dropped(t), Now())
      ensures TaskOf(Now(), t).Free? && Released(Now(), a, t)
    {
      OneStep(Now(), t, CallFinalize(t, a));
      Abandon(t, a);
      ghost var called := Now();
      rest := DropModule(t, a, others);
      Continues(old(Now()), t, [CallFinalize(t, a)], called, Dropped(t), Now());
    }
  }
}
