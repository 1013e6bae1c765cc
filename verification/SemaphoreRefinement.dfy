/** The semaphore implements the atomic counter of BoundedCounter. As long as no spurious release
    happens, every event of the concurrent semaphore is one action of the counter or leaves it
    unchanged; a grant given back by a cancelled waiter is a failed call that never held a token. */
module SemaphoreRefinement {
  import opened BoundedCounter
  import opened Common
  import opened SemaphoreProtocol
  import opened SemaphoreSafety

  predicate InCall(pc: Pc) {
    (pc.Waiting? || pc.Leaving? || pc.Woken? || pc.GivingBack?) && !pc.closer
  }

  function Holders(pcs: map<Caller, Pc>): set<Caller> {
    set t | t in pcs && pcs[t].Holding?
  }

  function Calls(pcs: map<Caller, Pc>): set<Caller> {
    set t | t in pcs && InCall(pcs[t])
  }

  /** Close counts as closed from the moment it owns `mu`. */
  function View(s: State): Counter {
    Counter(s.limit, Holders(s.pcs), Calls(s.pcs), s.f.closed || s.mu.Some?,
            s.closer.Some? && PcOf(s, s.closer.value).Drained?)
  }

  /** The action an event amounts to. */
  function ActionOf(s: State, e: Event): Action
    requires Enabled(s, e)
  {
    var s' := Apply(s, e);
    var pc := PcOf(s', e.t);
    match e
    case CallAcquire(t) => if pc.Holding? then Take(t) else if pc.Waiting? then Begin(t) else Stutter
    case CallClose(t) => if s.f.closed then Stutter else Shut
    case FinishClose(t) => if pc.Drained? then Drain else Stutter
    case Inspect(t) =>
      if pc.Drained? then Drain
      else if pc.Holding? then Take(t)
      else if pc.Idle? && !PcOf(s, t).closer then Fail(t)
      else Stutter
    case Leave(t) => if PcOf(s, t).closer then Stutter else Fail(t)
    case GiveBack(t) => if PcOf(s, t).closer then Stutter else Fail(t)
    case CallRelease(t) => Give(t)
    case _ => Stutter
  }

  lemma HoldersCount(s: State)
    ensures Holders(s.pcs) <= TokenCallers(s.pcs)
    ensures |Holders(s.pcs)| <= |TokenCallers(s.pcs)|
  {
    SubsetCount(Holders(s.pcs), TokenCallers(s.pcs));
  }

  /** With spurious releases ruled out, a closer that has its token has the only one. */
  lemma DrainedAlone(s: State)
    requires Valid(s) && s.spurious == 0 && View(s).drained
    ensures View(s).holders == {} && TokenCallers(s.pcs) == {s.closer.value} && s.f.granted == {}
  {
    var t := s.closer.value;
    assert t in TokenCallers(s.pcs);
    assert |TokenCallers(s.pcs)| == |TokenCallers(s.pcs) - {t}| + 1;
  }

  lemma ViewPcs(s: State, t: Caller, pc: Pc)
    ensures Holders(s.pcs[t := pc]) == if pc.Holding? then Holders(s.pcs) + {t} else Holders(s.pcs) - {t}
    ensures Calls(s.pcs[t := pc]) == if InCall(pc) then Calls(s.pcs) + {t} else Calls(s.pcs) - {t}
  {
  }

  ghost predicate Refines(s: State, e: Event)
    requires Enabled(s, e)
  {
    Can(View(s), ActionOf(s, e)) && View(Apply(s, e)) == Do(View(s), ActionOf(s, e))
  }

  lemma RefinesContext(s: State, e: Event)
    requires Enabled(s, e) && (e.Cancel? || e.Renew?)
    ensures Refines(s, e)
  {
  }

  lemma RefinesTake(s: State, e: Event)
    requires Valid(s) && Enabled(s, e) && (e.TakeDone? || e.TakeReady?)
    ensures Refines(s, e)
  {
    ViewPcs(s, e.t, PcOf(Apply(s, e), e.t));
  }

  lemma RefinesCallClose(s: State, e: Event)
    requires Valid(s) && Enabled(s, e) && e.CallClose?
    ensures Refines(s, e)
  {
    ViewPcs(s, e.t, PcOf(Apply(s, e), e.t));
  }

  lemma RefinesSendError(s: State, e: Event)
    requires Valid(s) && Enabled(s, e) && e.SendError?
    ensures Refines(s, e)
  {
    var pc := Sending(PcOf(s, e.t).rest[1..]);
    ViewPcs(s, e.t, pc);
    ViewPcs(s.(pcs := s.pcs[e.t := pc]), e.to, PcOf(Apply(s, e), e.to));
  }

  /** One caller moved on: what that does to the view. */
  lemma ViewAfter(s: State, s': State, t: Caller, pc: Pc)
    requires s'.pcs == s.pcs[t := pc] && s'.limit == s.limit && s'.closer == s.closer
    requires (s'.f.closed || s'.mu.Some?) == (s.f.closed || s.mu.Some?)
    ensures View(s') == Counter(
      s.limit,
      Changed(View(s).holders, t, PcOf(s, t).Holding?, pc.Holding?),
      Changed(View(s).calls, t, InCall(PcOf(s, t)), InCall(pc)),
      View(s).closed,
      if s.closer == Some(t) then pc.Drained? else View(s).drained)
    ensures t in View(s).holders <==> PcOf(s, t).Holding?
    ensures t in View(s).calls <==> InCall(PcOf(s, t))
  {
    ViewPcs(s, t, pc);
  }

  function Changed(callers: set<Caller>, t: Caller, before: bool, after: bool): set<Caller> {
    if before == after then callers else if after then callers + {t} else callers - {t}
  }

  lemma ReturnMoves(s: State, e: Event)
    requires Enabled(s, e) && (e.Leave? || e.GiveBack? || e.CallRelease?)
    ensures var s' := Apply(s, e);
            s'.pcs == s.pcs[e.t := Idle] && s'.limit == s.limit && s'.closer == s.closer && s'.mu == s.mu &&
            s'.f.closed == s.f.closed
  {
  }

  lemma RefinesRelease(s: State, e: Event)
    requires Valid(s) && Enabled(s, e) && Apply(s, e).spurious == 0 && e.CallRelease?
    ensures Refines(s, e)
  {
    ReturnMoves(s, e);
    ViewAfter(s, Apply(s, e), e.t, Idle);
    assert ActionOf(s, e) == Give(e.t);
  }

  lemma RefinesReturn(s: State, e: Event)
    requires Valid(s) && Enabled(s, e) && Apply(s, e).spurious == 0 && (e.Leave? || e.GiveBack?)
    ensures Refines(s, e)
  {
    ReturnMoves(s, e);
    ViewAfter(s, Apply(s, e), e.t, Idle);
    assert s.closer == Some(e.t) ==> !View(s).drained;
    assert ActionOf(s, e) == if PcOf(s, e.t).closer then Stutter else Fail(e.t);
  }

  /** A caller that obtains a token finds the counter below its limit and not drained. */
  lemma RoomForTaker(s: State, e: Event)
    requires Valid(s) && Enabled(s, e) && Apply(s, e).spurious == 0
    requires PcOf(Apply(s, e), e.t).Holding? && !PcOf(s, e.t).Holding?
    requires Apply(s, e).pcs == s.pcs[e.t := Holding]
    ensures |View(s).holders| < s.limit && !View(s).drained
  {
    var s' := Apply(s, e);
    StepValid(s, e);
    HoldersCount(s');
    ViewPcs(s, e.t, Holding);
    assert |Holders(s'.pcs)| == |Holders(s.pcs)| + 1;
    if View(s).drained {
      DrainedAlone(s');
    }
  }

  lemma AcquireMoves(s: State, e: Event)
    requires Enabled(s, e) && e.CallAcquire?
    ensures var s' := Apply(s, e); var pc := PcOf(s', e.t);
            s'.pcs == s.pcs[e.t := pc] && s'.limit == s.limit && s'.closer == s.closer && s'.mu == s.mu &&
            s'.f.closed == s.f.closed && PcOf(s, e.t).Idle? && s.mu.None? &&
            (pc.Idle? || (!s.f.closed && (pc.Holding? || (pc.Waiting? && !pc.closer))))
  {
  }

  lemma RefinesAcquire(s: State, e: Event)
    requires Valid(s) && Enabled(s, e) && Apply(s, e).spurious == 0 && e.CallAcquire?
    ensures Refines(s, e)
  {
    if PcOf(Apply(s, e), e.t).Holding? {
      RefinesAcquired(s, e);
    } else {
      RefinesQueued(s, e);
    }
  }

  lemma RefinesAcquired(s: State, e: Event)
    requires Valid(s) && Enabled(s, e) && Apply(s, e).spurious == 0 && e.CallAcquire? && PcOf(Apply(s, e), e.t).Holding?
    ensures Refines(s, e)
  {
    AcquireMoves(s, e);
    ViewAfter(s, Apply(s, e), e.t, PcOf(Apply(s, e), e.t));
    RoomForTaker(s, e);
    assert ActionOf(s, e) == Take(e.t);
  }

  lemma RefinesQueued(s: State, e: Event)
    requires Valid(s) && Enabled(s, e) && Apply(s, e).spurious == 0 && e.CallAcquire? && !PcOf(Apply(s, e), e.t).Holding?
    ensures Refines(s, e)
  {
    var s' := Apply(s, e);
    AcquireMoves(s, e);
    ViewAfter(s, s', e.t, PcOf(s', e.t));
    assert s.closer == Some(e.t) ==> !View(s).drained;
    assert ActionOf(s, e) == if PcOf(s', e.t).Waiting? then Begin(e.t) else Stutter;
  }

  lemma RefinesFinishClose(s: State, e: Event)
    requires Valid(s) && Enabled(s, e) && Apply(s, e).spurious == 0 && e.FinishClose?
    ensures Refines(s, e)
  {
    var s' := Apply(s, e);
    ViewAfter(s, s', e.t, PcOf(s', e.t));
    if PcOf(s', e.t).Drained? {
      StepValid(s, e);
      DrainedAlone(s');
    }
  }

  lemma RefinesTaken(s: State, e: Event)
    requires Valid(s) && Enabled(s, e) && Apply(s, e).spurious == 0 && e.Inspect? && PcOf(Apply(s, e), e.t).Holding?
    ensures Refines(s, e)
  {
    ViewAfter(s, Apply(s, e), e.t, PcOf(Apply(s, e), e.t));
    RoomForTaker(s, e);
  }

  lemma RefinesDrained(s: State, e: Event)
    requires Valid(s) && Enabled(s, e) && Apply(s, e).spurious == 0 && e.Inspect? && PcOf(Apply(s, e), e.t).Drained?
    ensures Refines(s, e)
  {
    ViewAfter(s, Apply(s, e), e.t, PcOf(Apply(s, e), e.t));
    StepValid(s, e);
    DrainedAlone(Apply(s, e));
  }

  lemma RefinesRefused(s: State, e: Event)
    requires Valid(s) && Enabled(s, e) && Apply(s, e).spurious == 0 && e.Inspect?
    requires !PcOf(Apply(s, e), e.t).Holding? && !PcOf(Apply(s, e), e.t).Drained?
    ensures Refines(s, e)
  {
    ViewAfter(s, Apply(s, e), e.t, PcOf(Apply(s, e), e.t));
  }

  lemma RefinesInspect(s: State, e: Event)
    requires Valid(s) && Enabled(s, e) && Apply(s, e).spurious == 0 && e.Inspect?
    ensures Refines(s, e)
  {
    if PcOf(Apply(s, e), e.t).Holding? {
      RefinesTaken(s, e);
    } else if PcOf(Apply(s, e), e.t).Drained? {
      RefinesDrained(s, e);
    } else {
      RefinesRefused(s, e);
    }
  }

  lemma StepRefines(s: State, e: Event)
    requires Valid(s) && Enabled(s, e) && Apply(s, e).spurious == 0
    ensures Refines(s, e)
  {
    match e
    case SendError(_, _) => RefinesSendError(s, e);
    case CallAcquire(_) => RefinesAcquire(s, e);
    case FinishClose(_) => RefinesFinishClose(s, e);
    case Inspect(_) => RefinesInspect(s, e);
    case Leave(_) => RefinesReturn(s, e);
    case GiveBack(_) => RefinesReturn(s, e);
    case CallRelease(_) => RefinesRelease(s, e);
    case Cancel(_) => RefinesContext(s, e);
    case Renew(_) => RefinesContext(s, e);
    case CallClose(_) => RefinesCallClose(s, e);
    case _ => RefinesTake(s, e);
  }

  /** The state of the counter after a sequence of actions, if each can happen in its turn. */
  function Play(c: Counter, actions: seq<Action>): Option<Counter>
    decreases |actions|
  {
    if actions == [] then Some(c)
    else if Can(c, actions[0]) then Play(Do(c, actions[0]), actions[1..])
    else None
  }

  function Actions(s: State, es: seq<Event>): seq<Action>
    requires Exec(s, es).Some?
    decreases |es|
  {
    if es == [] then [] else [ActionOf(s, es[0])] + Actions(Apply(s, es[0]), es[1..])
  }

  lemma {:induction false} SpuriousMonotone(s: State, es: seq<Event>)
    requires Exec(s, es).Some?
    ensures s.spurious <= Exec(s, es).value.spurious
    decreases |es|
  {
    if es == [] {
    } else {
      SpuriousMonotone(Apply(s, es[0]), es[1..]);
    }
  }

  lemma {:induction false} ExecRefines(s: State, es: seq<Event>)
    requires Valid(s) && Exec(s, es).Some? && Exec(s, es).value.spurious == 0
    ensures Play(View(s), Actions(s, es)) == Some(View(Exec(s, es).value))
    decreases |es|
  {
    if es == [] {
    } else {
      var s' := Apply(s, es[0]);
      SpuriousMonotone(s', es[1..]);
      StepRefines(s, es[0]);
      StepValid(s, es[0]);
      ExecRefines(s', es[1..]);
      assert Actions(s, es)[1..] == Actions(s', es[1..]);
    }
  }

  lemma {:induction false} PlayKeepsPromise(c: Counter, actions: seq<Action>)
    requires Promise(c) && Play(c, actions).Some?
    ensures Promise(Play(c, actions).value)
    decreases |actions|
  {
    if actions == [] {
    } else {
      PromiseKept(c, actions[0]);
      PlayKeepsPromise(Do(c, actions[0]), actions[1..]);
    }
  }

  /** Every run without a spurious release is, seen through View, a run of the atomic counter, so it
      keeps what the counter promises. */
  lemma SemaphoreRefinesCounter(limit: uint, es: seq<Event>)
    requires limit >= 1 && Exec(Init(limit), es).Some? && Exec(Init(limit), es).value.spurious == 0
    ensures Play(Counter(limit, {}, {}, false, false), Actions(Init(limit), es)) ==
            Some(View(Exec(Init(limit), es).value))
    ensures Promise(View(Exec(Init(limit), es).value))
  {
    ExecRefines(Init(limit), es);
    assert View(Init(limit)) == Counter(limit, {}, {}, false, false);
    PlayKeepsPromise(View(Init(limit)), Actions(Init(limit), es));
  }
}
