/** The closure that onceOrCancel returns, statement by statement, while other callers run in
    between: every execution is a run of OnceOrCancel. */
module OnceCode {
  import opened Common
  import opened OnceOrCancel

  type Others = seq<seq<Event>>

  /** Some run leads from s to s' in which t neither begins nor ends a call. */
  ghost predicate Leads(s: State, t: Thread, s': State) {
    exists es :: Run(s, t, es, s')
  }

  ghost predicate Run(s: State, t: Thread, es: seq<Event>, s': State) {
    Exec(s, es) == Some(s') && forall e :: e in es ==> Within(t, e)
  }

  predicate Within(t: Thread, e: Event) {
    e.t == t ==> !e.Call? && !e.Finish?
  }

  lemma {:induction false} ExecConcat(s: State, es: seq<Event>, fs: seq<Event>)
    requires Exec(s, es).Some?
    ensures Exec(s, es + fs) == Exec(Exec(s, es).value, fs)
    decreases |es|
  {
    if es == [] {
      assert es + fs == fs;
    } else {
      ExecConcat(Apply(s, es[0]), es[1..], fs);
      assert (es + fs)[1..] == es[1..] + fs;
    }
  }

  lemma Stays(s: State, t: Thread)
    ensures Leads(s, t, s)
  {
    assert Run(s, t, [], s);
  }

  lemma Continues(s: State, t: Thread, s': State, s'': State)
    requires Leads(s, t, s') && Leads(s', t, s'')
    ensures Leads(s, t, s'')
  {
    var es, fs :| Run(s, t, es, s') && Run(s', t, fs, s'');
    ExecConcat(s, es, fs);
    assert Run(s, t, es + fs, s'');
  }

  lemma Step(s0: State, t: Thread, s: State, e: Event)
    requires Leads(s0, t, s) && Enabled(s, e) && Within(t, e)
    ensures Leads(s0, t, Apply(s, e))
  {
    assert Exec(s, [e]) == Exec(Apply(s, e), [e][1..]) == Some(Apply(s, e));
    assert Run(s, t, [e], Apply(s, e));
    Continues(s0, t, s, Apply(s, e));
  }

  class Once {
    var done: bool
    var mu: Option<Thread>
    var ret: Value
    var err: Error
    var pcs: map<Thread, Pc>   // the statement each caller has reached
    var log: seq<Pair>

    function Now(): State
      reads this
    {
      State(done, mu, ret, err, pcs, log)
    }

    constructor ()
      ensures Now() == Init()
    {
      done, mu, ret, err, pcs, log := false, None, 0, Nil, map[], [];
    }

    /** The other callers run. */
    method Pause(t: Thread, others: Others) returns (rest: Others)
      modifies this
      ensures Leads(old(Now()), t, Now()) && PcOf(Now(), t) == old(PcOf(Now(), t))
      ensures others != [] ==> |rest| < |others|
      ensures others == [] ==> rest == [] && Now() == old(Now())
    {
      Stays(Now(), t);
      if others == [] {
        return others;
      }
      for i := 0 to |others[0]|
        invariant Leads(old(Now()), t, Now()) && PcOf(Now(), t) == old(PcOf(Now(), t))
      {
        var e := others[0][i];
        if e.t != t && Enabled(Now(), e) {
          Step(old(Now()), t, Now(), e);
          var s := Apply(Now(), e);
          done, mu, ret, err, pcs, log := s.done, s.mu, s.ret, s.err, s.pcs, s.log;
        }
      }
      rest := others[1..];
    }

    /** done, ret and err. */
    function Memo(): (bool, Pair)
      reads this
    {
      (done, Pair(ret, err))
    }

    /** return o.ret, o.err */
    method ReadPair(t: Thread, others: Others) returns (rest: Others)
      requires PcOf(Now(), t).ReadingRet?
      modifies this
      ensures Leads(old(Now()), t, Now())
      ensures var pc, pc' := old(PcOf(Now(), t)), PcOf(Now(), t);
              if pc.locked then pc'.Unlocking? && pc'.own == pc.own else pc'.Returned? && pc'.own == pc.own
      ensures others == [] ==> rest == [] && Memo() == old(Memo()) && log == old(log) && PcOf(Now(), t).v == Pair(ret, err)
    {
      Stays(Now(), t);
      Step(Now(), t, Now(), ReadRet(t));
      var ReadingRet(locked, own) := pcs[t];
      var r := ret;
      pcs := pcs[t := ReadingErr(locked, own, r)];
      ghost var before := Now();
      rest := Pause(t, others);
      Continues(old(Now()), t, before, Now());
      Step(old(Now()), t, Now(), ReadErr(t));
      var v := Pair(r, err);
      pcs := pcs[t := if locked then Unlocking(v, own) else Returned(v, own)];
    }

    /** o.ret, o.err = f(ctx), and the store of done; f returns `outcome`. */
    method CallF(t: Thread, others: Others, outcome: Pair) returns (rest: Others)
      requires PcOf(Now(), t).Running?
      modifies this
      ensures Leads(old(Now()), t, Now()) && PcOf(Now(), t) == ReadingRet(true, Some(outcome))
      ensures others == [] ==> rest == [] && Memo() == (!outcome.err.Canceled?, outcome)
    {
      rest := Pause(t, others);
      Step(old(Now()), t, Now(), Produce(t, outcome));
      log, pcs := log + [outcome], pcs[t := WritingRet(outcome)];
      Step(old(Now()), t, Now(), WriteRet(t));
      ret, pcs := outcome.ret, pcs[t := WritingErr(outcome)];
      ghost var before := Now();
      rest := KeepResult(t, rest, outcome);
      Continues(old(Now()), t, before, Now());
    }

    /** The stores of err and done. */
    method KeepResult(t: Thread, others: Others, outcome: Pair) returns (rest: Others)
      requires PcOf(Now(), t) == WritingErr(outcome)
      modifies this
      ensures Leads(old(Now()), t, Now()) && PcOf(Now(), t) == ReadingRet(true, Some(outcome))
      ensures others == [] ==> rest == [] && Memo() == (!outcome.err.Canceled?, Pair(old(ret), outcome.err))
    {
      rest := Pause(t, others);
      Step(old(Now()), t, Now(), WriteErr(t));
      err, pcs := outcome.err, pcs[t := Storing(outcome)];
      ghost var before := Now();
      rest := Pause(t, rest);
      Continues(old(Now()), t, before, Now());
      Step(old(Now()), t, Now(), StoreDone(t));
      done, pcs := !err.Canceled?, pcs[t := ReadingRet(true, Some(outcome))];
    }

    /** The part under the lock. */
    method SlowPath(t: Thread, others: Others, outcome: Pair) returns (rest: Others)
      requires PcOf(Now(), t).Locking? && mu.None?
      modifies this
      ensures Leads(old(Now()), t, Now())
      ensures PcOf(Now(), t).Returned? && PcOf(Now(), t).own in {None, Some(outcome)}
      ensures others == [] && !old(done) ==> PcOf(Now(), t).v == outcome && Memo() == (!outcome.err.Canceled?, outcome)
    {
      Stays(Now(), t);
      Step(Now(), t, Now(), Lock(t));
      mu, pcs := Some(t), pcs[t := Checking];
      ghost var before := Now();
      rest := Pause(t, others);
      Continues(old(Now()), t, before, Now());
      Step(old(Now()), t, Now(), Recheck(t));
      if done {
        pcs := pcs[t := ReadingRet(true, None)];
      } else {
        pcs := pcs[t := Running];
        before := Now();
        rest := CallF(t, rest, outcome);
        Continues(old(Now()), t, before, Now());
      }
      before := Now();
      rest := ReadPair(t, rest);
      Continues(old(Now()), t, before, Now());
      before := Now();
      rest := Pause(t, rest);
      Continues(old(Now()), t, before, Now());
      Step(old(Now()), t, Now(), Unlock(t));
      var Unlocking(v, own) := pcs[t];
      mu, pcs := None, pcs[t := Returned(v, own)];
    }

    /** One call. It returns None only while the lock is still taken when the others have stopped. Left
        alone, it returns the stored result and does not call f, or it calls f, stores and returns what f
        returned, and counts it as stored unless it is a cancellation. */
    method Invoke(t: Thread, others: Others, outcome: Pair) returns (r: Option<Pair>, rest: Others)
      requires PcOf(Now(), t).Idle?
      modifies this
      ensures Leads(Apply(old(Now()), Call(t)), t, Now())
      ensures match r
              case Some(v) => PcOf(Now(), t).Returned? && PcOf(Now(), t).v == v && PcOf(Now(), t).own in {None, Some(outcome)}
              case None => PcOf(Now(), t).Locking? && mu.Some? && rest == []
      ensures others == [] && old(done) ==> r == Some(Pair(ret, err)) && Memo() == old(Memo()) && log == old(log)
      ensures others == [] && !old(done) && old(mu).None? ==>
        r == Some(outcome) && Memo() == (!outcome.err.Canceled?, outcome)
    {
      pcs := pcs[t := Loading];
      ghost var called := Now();
      rest := Pause(t, others);
      Step(called, t, Now(), LoadDone(t));
      if done {
        pcs := pcs[t := ReadingRet(false, None)];
        ghost var before := Now();
        rest := ReadPair(t, rest);
        Continues(called, t, before, Now());
        return Some(pcs[t].v), rest;
      }
      pcs := pcs[t := Locking];
      while rest != [] && mu.Some?
        invariant others == [] ==> rest == [] && Memo() == old(Memo()) && mu == old(mu)
        invariant Leads(called, t, Now()) && PcOf(Now(), t).Locking?
        decreases |rest|
      {
        ghost var before := Now();
        rest := Pause(t, rest);
        Continues(called, t, before, Now());
      }
      if mu.Some? {
        return None, rest;
      }
      ghost var before := Now();
      rest := SlowPath(t, rest, outcome);
      Continues(called, t, before, Now());
      return Some(pcs[t].v), rest;
    }
  }
}
