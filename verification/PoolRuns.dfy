/** Which states of the session pools a run leads to. */
module PoolRuns {
  import opened Common
  import opened PoolProtocol

  ghost predicate Leads(s: State, s': State) {
    exists es :: Exec(s, es) == Some(s')
  }

  lemma {:induction false} ExecConcat(s: State, es: seq<Event>, fs: seq<Event>)
    requires Exec(s, es).Some?
    ensures Exec(s, es + fs) == Exec(Exec(s, es).value, fs)
    decreases |es|
  {
    if es == [] {
      assert es + fs == fs;
    } else {
      assert (es + fs)[0] == es[0] && (es + fs)[1..] == es[1..] + fs;
      var s' := Apply(s, es[0]);
      ExecConcat(s', es[1..], fs);
      assert Exec(s, es) == Exec(s', es[1..]) && Exec(s, es + fs) == Exec(s', es[1..] + fs);
    }
  }

  lemma Stays(s: State)
    ensures Leads(s, s)
  {
    assert Exec(s, []) == Some(s);
  }

  lemma Continues(s: State, s': State, s'': State)
    requires Leads(s, s') && Leads(s', s'')
    ensures Leads(s, s'')
  {
    var es, fs :| Exec(s, es) == Some(s') && Exec(s', fs) == Some(s'');
    ExecConcat(s, es, fs);
  }

  lemma OneStep(s: State, e: Event)
    requires Enabled(s, e)
    ensures Leads(s, Apply(s, e))
  {
    assert Exec(s, [e]) == Exec(Apply(s, e), [e][1..]) == Some(Apply(s, e));
  }

  /** The steps of thread t. */
  function Own(es: seq<Event>, t: Thread): seq<Event> {
    if es == [] then []
    else if es[0].t == t then [es[0]] + Own(es[1..], t)
    else Own(es[1..], t)
  }

  /** There is a run from s to s' in which t takes exactly the steps `own`, in this order. */
  ghost predicate Does(s: State, t: Thread, own: seq<Event>, s': State) {
    exists es :: Run(s, t, es, own, s')
  }

  ghost predicate Run(s: State, t: Thread, es: seq<Event>, own: seq<Event>, s': State) {
    Exec(s, es) == Some(s') && Own(es, t) == own
  }

  lemma {:induction false} OwnConcat(es: seq<Event>, fs: seq<Event>, t: Thread)
    ensures Own(es + fs, t) == Own(es, t) + Own(fs, t)
  {
    if es == [] {
      assert es + fs == fs;
    } else {
      assert (es + fs)[0] == es[0] && (es + fs)[1..] == es[1..] + fs;
      OwnConcat(es[1..], fs, t);
    }
  }

  lemma Nothing(s: State, t: Thread)
    ensures Does(s, t, [], s)
  {
    assert Run(s, t, [], [], s);
  }

  lemma Then(s: State, t: Thread, own: seq<Event>, s': State, own': seq<Event>, s'': State)
    requires Does(s, t, own, s') && Does(s', t, own', s'')
    ensures Does(s, t, own + own', s'')
  {
    var es, fs :| Run(s, t, es, own, s') && Run(s', t, fs, own', s'');
    ExecConcat(s, es, fs);
    OwnConcat(es, fs, t);
    assert Run(s, t, es + fs, own + own', s'');
  }

  /** The others move on before, or after, what t does. */
  lemma Aside(s: State, t: Thread, own: seq<Event>, s': State, own': seq<Event>, s'': State)
    requires Does(s, t, own, s') && Does(s', t, own', s'') && (own == [] || own' == [])
    ensures Does(s, t, if own == [] then own' else own, s'')
  {
    Then(s, t, own, s', own', s'');
    assert own + own' == if own == [] then own' else own;
  }

  lemma DoesOne(s: State, t: Thread, e: Event)
    requires Enabled(s, e)
    ensures Does(s, t, if e.t == t then [e] else [], Apply(s, e))
  {
    assert Exec(s, [e]) == Exec(Apply(s, e), [e][1..]) == Some(Apply(s, e));
    assert Own([e], t) == if e.t == t then [e] + Own([e][1..], t) else Own([e][1..], t);
    assert Run(s, t, [e], if e.t == t then [e] else [], Apply(s, e));
  }

  // ---- Runs inside one call ------------------------------------------------------------------------

  /** The event is another thread's, or a step of the call t is in. */
  predicate Within(t: Thread, e: Event) {
    e.t == t ==> !e.CallLogin? && !e.CallDrop? && !e.CallGet? && !e.CallCloseHandle? && !e.Finish?
  }

  /** Some run leads from s to s' in which t neither begins nor ends a call. */
  ghost predicate Goes(s: State, t: Thread, s': State) {
    exists es :: Stretch(s, t, es, s')
  }

  ghost predicate Stretch(s: State, t: Thread, es: seq<Event>, s': State) {
    Exec(s, es) == Some(s') && forall e :: e in es ==> Within(t, e)
  }

  lemma Rests(s: State, t: Thread)
    ensures Goes(s, t, s)
  {
    assert Stretch(s, t, [], s);
  }

  lemma GoesOn(s: State, t: Thread, s': State, s'': State)
    requires Goes(s, t, s') && Goes(s', t, s'')
    ensures Goes(s, t, s'')
  {
    var es, fs :| Stretch(s, t, es, s') && Stretch(s', t, fs, s'');
    ExecConcat(s, es, fs);
    assert Stretch(s, t, es + fs, s'');
  }

  lemma OneGo(s: State, t: Thread, e: Event)
    requires Enabled(s, e) && Within(t, e)
    ensures Goes(s, t, Apply(s, e))
  {
    assert Exec(s, [e]) == Exec(Apply(s, e), [e][1..]) == Some(Apply(s, e));
    assert Stretch(s, t, [e], Apply(s, e));
  }

  lemma {:induction false} OwnHas(es: seq<Event>, t: Thread, e: Event)
    requires e in es && e.t == t
    ensures e in Own(es, t)
  {
    if e == es[0] {
    } else {
      OwnHas(es[1..], t, e);
    }
  }

  /** What t does is all steps of one call. */
  predicate Inside(t: Thread, own: seq<Event>) {
    forall e :: e in own ==> Within(t, e)
  }

  lemma DoesGoes(s: State, t: Thread, own: seq<Event>, s': State)
    requires Does(s, t, own, s') && Inside(t, own)
    ensures Goes(s, t, s')
  {
    var es :| Run(s, t, es, own, s');
    forall e | e in es ensures Within(t, e) {
      if e.t == t {
        OwnHas(es, t, e);
      }
    }
    assert Stretch(s, t, es, s');
  }
}
