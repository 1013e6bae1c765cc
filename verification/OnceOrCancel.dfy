/** onceOrCancel, kms/pkcs11/pkcs11.go: a memoised function that is tried again after a result that
    matches context.Canceled. Every load, store, lock and call is a step of its own; the two fields
    of the result are read and written one at a time. */
module OnceOrCancel {
  import opened Common

  type Thread = nat
  type Value = nat

  /** Canceled stands for every error that matches context.Canceled, Other for the rest; an expired
      deadline is among the rest. */
  datatype Error = Nil | Canceled(code: nat) | Other(code: nat)

  datatype Pair = Pair(ret: Value, err: Error)

  /** `own` is the result of the caller's own call of f, if it made one (a history variable). */
  datatype Pc =
    | Idle
    | Loading
    | Locking
    | Checking
    | Running                                       // inside f
    | WritingRet(v: Pair)
    | WritingErr(v: Pair)
    | Storing(v: Pair)
    | ReadingRet(locked: bool, own: Option<Pair>)
    | ReadingErr(locked: bool, own: Option<Pair>, ret: Value)
    | Unlocking(v: Pair, own: Option<Pair>)
    | Returned(v: Pair, own: Option<Pair>)

  /** log: the results of f in the order it returned them (a history variable). */
  datatype State = State(done: bool, mu: Option<Thread>, ret: Value, err: Error, pcs: map<Thread, Pc>, log: seq<Pair>)

  datatype Event =
    | Call(t: Thread)
    | LoadDone(t: Thread)
    | Lock(t: Thread)
    | Recheck(t: Thread)
    | Produce(t: Thread, v: Pair)                   // f returns
    | WriteRet(t: Thread)
    | WriteErr(t: Thread)
    | StoreDone(t: Thread)
    | ReadRet(t: Thread)
    | ReadErr(t: Thread)
    | Unlock(t: Thread)
    | Finish(t: Thread)

  function Init(): State {
    State(false, None, 0, Nil, map[], [])
  }

  function PcOf(s: State, t: Thread): Pc {
    if t in s.pcs then s.pcs[t] else Idle
  }

  predicate Enabled(s: State, e: Event) {
    var pc := PcOf(s, e.t);
    match e
    case Call(_) => pc.Idle?
    case LoadDone(_) => pc.Loading?
    case Lock(_) => pc.Locking? && s.mu.None?
    case Recheck(_) => pc.Checking?
    case Produce(_, _) => pc.Running?
    case WriteRet(_) => pc.WritingRet?
    case WriteErr(_) => pc.WritingErr?
    case StoreDone(_) => pc.Storing?
    case ReadRet(_) => pc.ReadingRet?
    case ReadErr(_) => pc.ReadingErr?
    case Unlock(_) => pc.Unlocking?
    case Finish(_) => pc.Returned?
  }

  function Goto(s: State, t: Thread, pc: Pc): State {
    s.(pcs := s.pcs[t := pc])
  }

  function Apply(s: State, e: Event): State
    requires Enabled(s, e)
  {
    var t, pc := e.t, PcOf(s, e.t);
    match e
    case Call(_) => Goto(s, t, Loading)
    case LoadDone(_) => Goto(s, t, if s.done then ReadingRet(false, None) else Locking)
    case Lock(_) => Goto(s.(mu := Some(t)), t, Checking)
    case Recheck(_) => Goto(s, t, if s.done then ReadingRet(true, None) else Running)
    case Produce(_, v) => Goto(s.(log := s.log + [v]), t, WritingRet(v))
    case WriteRet(_) => Goto(s.(ret := pc.v.ret), t, WritingErr(pc.v))
    case WriteErr(_) => Goto(s.(err := pc.v.err), t, Storing(pc.v))
    case StoreDone(_) => Goto(s.(done := !s.err.Canceled?), t, ReadingRet(true, Some(pc.v)))
    case ReadRet(_) => Goto(s, t, ReadingErr(pc.locked, pc.own, s.ret))
    case ReadErr(_) =>
      var v := Pair(pc.ret, s.err);
      Goto(s, t, if pc.locked then Unlocking(v, pc.own) else Returned(v, pc.own))
    case Unlock(_) => Goto(s.(mu := None), t, Returned(pc.v, pc.own))
    case Finish(_) => Goto(s, t, Idle)
  }

  function Exec(s: State, es: seq<Event>): Option<State>
    decreases |es|
  {
    if es == [] then Some(s)
    else if Enabled(s, es[0]) then Exec(Apply(s, es[0]), es[1..])
    else None
  }

  // ---- The invariant ----------------------------------------------------------------------------

  predicate Locked(pc: Pc) {
    pc.Checking? || pc.Running? || pc.WritingRet? || pc.WritingErr? || pc.Storing? || pc.Unlocking? ||
    (pc.ReadingRet? && pc.locked) || (pc.ReadingErr? && pc.locked)
  }

  /** The thread has called f and not yet recorded the outcome. */
  predicate InCall(pc: Pc) {
    pc.Running? || pc.WritingRet? || pc.WritingErr? || pc.Storing?
  }

  function Last(s: State): Pair
    requires s.log != []
  {
    s.log[|s.log| - 1]
  }

  /** The memo is filled, and v is what it holds. */
  ghost predicate Final(s: State, v: Pair) {
    s.done && s.log != [] && v == Last(s)
  }

  ghost predicate ThreadOk(s: State, t: Thread, pc: Pc) {
    && (Locked(pc) <==> s.mu == Some(t))
    && (InCall(pc) ==> !s.done)
    && (pc.WritingRet? || pc.WritingErr? || pc.Storing? ==> s.log != [] && pc.v == Last(s))
    && (pc.WritingErr? || pc.Storing? ==> s.ret == pc.v.ret)
    && (pc.Storing? ==> s.err == pc.v.err)
    && (pc.ReadingRet? || pc.ReadingErr? ==>
          (if pc.own.None? then s.done else pc.locked && pc.own.value == Pair(s.ret, s.err)) &&
          (pc.ReadingErr? ==> pc.ret == s.ret))
    && (pc.Unlocking? || pc.Returned? ==> if pc.own.None? then Final(s, pc.v) else pc.v == pc.own.value)
  }

  ghost predicate Threads(s: State) {
    forall t :: t in s.pcs ==> ThreadOk(s, t, s.pcs[t])
  }

  /** Every result before the last was canceled, and the last too unless it is stored or about to be. */
  ghost predicate Memo(s: State) {
    && (forall i :: 0 <= i < |s.log| - 1 ==> s.log[i].err.Canceled?)
    && (s.done ==> s.log != [] && !Last(s).err.Canceled? && Last(s) == Pair(s.ret, s.err))
    && (!s.done && s.log != [] && !Last(s).err.Canceled? ==>
          s.mu.Some? && s.mu.value in s.pcs && InCall(s.pcs[s.mu.value]) && !s.pcs[s.mu.value].Running?)
    && (s.mu.Some? ==> s.mu.value in s.pcs && Locked(s.pcs[s.mu.value]))
  }

  ghost predicate Valid(s: State) {
    Threads(s) && Memo(s)
  }

  lemma StepValid(s: State, e: Event)
    requires Valid(s) && Enabled(s, e)
    ensures Valid(Apply(s, e))
  {
    var s' := Apply(s, e);
    assert e.t in s.pcs ==> ThreadOk(s, e.t, s.pcs[e.t]);
    forall t | t in s'.pcs ensures ThreadOk(s', t, s'.pcs[t]) {
      assert t in s.pcs ==> ThreadOk(s, t, s.pcs[t]);
    }
  }

  lemma {:induction false} ExecValid(s: State, es: seq<Event>)
    requires Valid(s) && Exec(s, es).Some?
    ensures Valid(Exec(s, es).value)
    decreases |es|
  {
    if es == [] {
    } else {
      StepValid(s, es[0]);
      ExecValid(Apply(s, es[0]), es[1..]);
    }
  }

  ghost predicate Reaches(es: seq<Event>) {
    Exec(Init(), es).Some?
  }

  function After(es: seq<Event>): State
    requires Reaches(es)
  {
    Exec(Init(), es).value
  }

  // ---- What callers can rely on --------------------------------------------------------------------

  /** Calls of f never overlap. */
  lemma CallsNeverOverlap(es: seq<Event>, t: Thread, u: Thread)
    requires Reaches(es) && InCall(PcOf(After(es), t)) && InCall(PcOf(After(es), u))
    ensures t == u
  {
    ExecValid(Init(), es);
    var s := After(es);
    assert ThreadOk(s, t, s.pcs[t]) && ThreadOk(s, u, s.pcs[u]);
  }

  /** A result that was not canceled is the last: no call of f is under way once it is stored, and
      in no continuation is f called or the memo written again. */
  lemma ResultIsFinal(es: seq<Event>, later: seq<Event>, i: nat)
    requires Reaches(es) && i < |After(es).log| && !After(es).log[i].err.Canceled?
    requires Exec(After(es), later).Some?
    ensures Exec(After(es), later).value.log == After(es).log && i == |After(es).log| - 1
    ensures After(es).done ==>
      var s, s' := After(es), Exec(After(es), later).value;
      s'.done && s'.ret == s.ret && s'.err == s.err && (forall t :: !InCall(PcOf(s', t))) && s.log[i] == Pair(s.ret, s.err)
  {
    ExecValid(Init(), es);
    var s := After(es);
    ExecFinal(s, later);
    ExecValid(s, later);
    var s' := Exec(s, later).value;
    if s'.done {
      forall t ensures !InCall(PcOf(s', t)) {
        assert t in s'.pcs ==> ThreadOk(s', t, s'.pcs[t]);
      }
    }
  }

  lemma {:induction false} ExecFinal(s: State, es: seq<Event>)
    requires Valid(s) && s.log != [] && !Last(s).err.Canceled? && Exec(s, es).Some?
    ensures Exec(s, es).value.log == s.log
    ensures s.done ==> Exec(s, es).value.done && Exec(s, es).value.ret == s.ret && Exec(s, es).value.err == s.err
    decreases |es|
  {
    if es == [] {
    } else {
      assert es[0].t in s.pcs ==> ThreadOk(s, es[0].t, s.pcs[es[0].t]);
      StepValid(s, es[0]);
      ExecFinal(Apply(s, es[0]), es[1..]);
    }
  }

  /** Every caller returns a pair that f produced: the one its own call of f produced, or the final
      one. So a caller that did not run f itself never sees a cancellation. */
  lemma ReturnsProducedPair(es: seq<Event>, t: Thread)
    requires Reaches(es) && PcOf(After(es), t).Returned?
    ensures var s := After(es); var Returned(v, own) := PcOf(s, t);
            if own.Some? then v == own.value else s.done && s.log != [] && v == Last(s) && !v.err.Canceled?
  {
    ExecValid(Init(), es);
    var s := After(es);
    assert ThreadOk(s, t, s.pcs[t]);
  }

  /** The memo is filled exactly when f has returned something other than a cancellation and its
      caller has recorded that. */
  lemma FilledIffResult(es: seq<Event>)
    requires Reaches(es)
    ensures var s := After(es);
            s.done <==> (exists i :: 0 <= i < |s.log| && !s.log[i].err.Canceled?) && (forall t :: !InCall(PcOf(s, t)))
  {
    ExecValid(Init(), es);
    var s := After(es);
    if s.done {
      assert !s.log[|s.log| - 1].err.Canceled?;
      forall t ensures !InCall(PcOf(s, t)) {
        assert t in s.pcs ==> ThreadOk(s, t, s.pcs[t]);
      }
    } else if s.log != [] && !Last(s).err.Canceled? {
      assert InCall(PcOf(s, s.mu.value));
    }
  }

  /** Own results are results of f. */
  lemma {:induction false} OwnResultsLogged(s: State, es: seq<Event>)
    requires Exec(s, es).Some? && OwnLogged(s)
    ensures OwnLogged(Exec(s, es).value)
    decreases |es|
  {
    if es == [] {
    } else {
      var s' := Apply(s, es[0]);
      forall t | t in s'.pcs && Own(s'.pcs[t]).Some? ensures Own(s'.pcs[t]).value in s'.log {
        if t != es[0].t {
          assert Own(s.pcs[t]).value in s.log;
        }
      }
      OwnResultsLogged(s', es[1..]);
    }
  }

  function Own(pc: Pc): Option<Pair> {
    if pc.WritingRet? || pc.WritingErr? || pc.Storing? then Some(pc.v)
    else if pc.ReadingRet? || pc.ReadingErr? || pc.Unlocking? || pc.Returned? then pc.own
    else None
  }

  ghost predicate OwnLogged(s: State) {
    forall t :: t in s.pcs && Own(s.pcs[t]).Some? ==> Own(s.pcs[t]).value in s.log
  }

  lemma ReturnsLoggedPair(es: seq<Event>, t: Thread)
    requires Reaches(es) && PcOf(After(es), t).Returned?
    ensures PcOf(After(es), t).v in After(es).log
  {
    ReturnsProducedPair(es, t);
    OwnResultsLogged(Init(), es);
    assert Own(After(es).pcs[t]).Some? ==> Own(After(es).pcs[t]).value in After(es).log;
  }
}
