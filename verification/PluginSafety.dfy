/** What plugin callers can rely on, over every run of clients and servers. */
module PluginSafety {
  import opened Common
  import opened PluginWire
  import opened PluginRegistry
  import opened PluginRefinement

  /** An object is new, open, or closed for good; it is closed by one call, the only one ever made. */
  ghost predicate Once(d: Direct) {
    && OpenOnce(d)
    && LogOnce(d)
    && (forall t :: t in d.pcs ==> PcOnce(d, d.pcs[t]))
    && (forall t, u :: t in d.pcs && u in d.pcs && t != u ==> NotBoth(d.pcs[t], d.pcs[u]))
  }

  ghost predicate OpenOnce(d: Direct) {
    forall ref :: ref in d.open ==> ref < d.objects
  }

  ghost predicate LogOnce(d: Direct) {
    && (forall i :: 0 <= i < |d.log| && d.log[i].1.Destroy? ==> d.log[i].0 !in d.open && d.log[i].0 < d.objects)
    && (forall i, j :: 0 <= i < j < |d.log| && d.log[i].1.Destroy? && d.log[j].1.Destroy? ==> d.log[i].0 != d.log[j].0)
  }

  predicate Closing(pc: DirectPc) {
    pc.Busy? && pc.req.Destroy?
  }

  /** The object is not yet known to any client. */
  predicate New(pc: DirectPc) {
    (pc.Busy? && pc.req.Create?) || pc.Made?
  }

  ghost predicate NeverClosed(log: seq<(Ref, Request)>, ref: Ref) {
    forall i :: 0 <= i < |log| && log[i].1.Destroy? ==> log[i].0 != ref
  }

  ghost predicate PcOnce(d: Direct, pc: DirectPc) {
    Closing(pc) || New(pc) ==> pc.ref < d.objects && pc.ref !in d.open && NeverClosed(d.log, pc.ref)
  }

  ghost predicate NotBoth(pc: DirectPc, other: DirectPc) {
    (Closing(pc) || New(pc)) && (Closing(other) || New(other)) ==> pc.ref != other.ref
  }

  lemma OnceOther(d: Direct, e: Event, pc: DirectPc)
    requires OpenOnce(d) && DirectEnabled(d, e) && !e.DropKey? && !e.CloseKey?
    requires PcOnce(d, pc) && NotBoth(pc, DirectPcOf(d, e.t))
    ensures PcOnce(DirectApply(d, e), pc)
  {
  }

  lemma OnceOwn(d: Direct, e: Event)
    requires !e.DropKey? && !e.CloseKey?
    requires OpenOnce(d) && LogOnce(d) && DirectEnabled(d, e) && PcOnce(d, DirectPcOf(d, e.t))
    ensures PcOnce(DirectApply(d, e), DirectPcOf(DirectApply(d, e), e.t))
  {
  }

  lemma OnceThreads(d: Direct, e: Event, t: Thread)
    requires Once(d) && DirectEnabled(d, e) && !e.DropKey? && !e.CloseKey?
    requires t in DirectApply(d, e).pcs
    ensures PcOnce(DirectApply(d, e), DirectApply(d, e).pcs[t])
  {
    assert e.t in d.pcs ==> PcOnce(d, d.pcs[e.t]);
    if t == e.t {
      OnceOwn(d, e);
    } else {
      assert PcOnce(d, d.pcs[t]);
      assert e.t in d.pcs ==> NotBoth(d.pcs[t], d.pcs[e.t]);
      OnceOther(d, e, d.pcs[t]);
    }
  }

  lemma OnceApart(d: Direct, e: Event, t: Thread)
    requires Once(d) && DirectEnabled(d, e) && !e.DropKey? && !e.CloseKey? && t in d.pcs && t != e.t
    ensures NotBoth(DirectPcOf(DirectApply(d, e), e.t), d.pcs[t])
    ensures NotBoth(d.pcs[t], DirectPcOf(DirectApply(d, e), e.t))
  {
    assert PcOnce(d, d.pcs[t]);
    assert e.t in d.pcs ==> NotBoth(d.pcs[t], d.pcs[e.t]);
  }

  lemma OncePairs(d: Direct, e: Event)
    requires Once(d) && DirectEnabled(d, e) && !e.DropKey? && !e.CloseKey?
    ensures var d' := DirectApply(d, e);
            forall t, u :: t in d'.pcs && u in d'.pcs && t != u ==> NotBoth(d'.pcs[t], d'.pcs[u])
  {
    var d' := DirectApply(d, e);
    assert d'.pcs == d.pcs[e.t := DirectPcOf(d', e.t)];
    forall t, u | t in d'.pcs && u in d'.pcs && t != u ensures NotBoth(d'.pcs[t], d'.pcs[u]) {
      if t == e.t {
        OnceApart(d, e, u);
      } else if u == e.t {
        OnceApart(d, e, t);
      }
    }
  }

  lemma OnceOpen(d: Direct, e: Event)
    requires !e.DropKey? && !e.CloseKey?
    requires OpenOnce(d) && DirectEnabled(d, e) && PcOnce(d, DirectPcOf(d, e.t))
    ensures OpenOnce(DirectApply(d, e))
  {
  }

  lemma OnceLog(d: Direct, e: Event)
    requires !e.DropKey? && !e.CloseKey?
    requires LogOnce(d) && DirectEnabled(d, e) && PcOnce(d, DirectPcOf(d, e.t))
    ensures LogOnce(DirectApply(d, e))
  {
  }

  lemma OnceStep(d: Direct, e: Event)
    requires Once(d) && DirectEnabled(d, e)
    ensures Once(DirectApply(d, e))
  {
    if !e.DropKey? && !e.CloseKey? {
      var d' := DirectApply(d, e);
      assert e.t in d.pcs ==> PcOnce(d, d.pcs[e.t]);
      OnceOpen(d, e);
      OnceLog(d, e);
      forall t | t in d'.pcs ensures PcOnce(d', d'.pcs[t]) {
        OnceThreads(d, e, t);
      }
      OncePairs(d, e);
    }
  }

  lemma {:induction false} ExecOnce(d: Direct, es: seq<Event>)
    requires Once(d) && DirectExec(d, es).Some?
    ensures Once(DirectExec(d, es).value)
    decreases |es|
  {
    if es == [] {
    } else {
      OnceStep(d, es[0]);
      ExecOnce(DirectApply(d, es[0]), es[1..]);
    }
  }

  /** The Close or Finalize of an object is called at most once, however many clients and threads
      close it. */
  lemma DestroyedOnce(side: Side, es: seq<Event>, i: nat, j: nat)
    requires Exec(side, Init(), es).Some?
    requires var log := Exec(side, Init(), es).value.log; i < j < |log| && log[i].1.Destroy? && log[j].1.Destroy?
    ensures var log := Exec(side, Init(), es).value.log; log[i].0 != log[j].0
  {
    RegistryRefinesDirectUse(side, es);
    ExecOnce(NOTHING, es);
  }

  // ---- After Close ------------------------------------------------------------------------------------

  lemma {:induction false} IdsNeverReturn(side: Side, s: State, es: seq<Event>, id: Id)
    requires id in s.issued && id !in s.tables.services && Exec(side, s, es).Some?
    ensures id in Exec(side, s, es).value.issued && id !in Exec(side, s, es).value.tables.services
    decreases |es|
  {
    if es == [] {
    } else {
      IdsNeverReturn(side, Apply(side, s, es[0]), es[1..], id);
    }
  }

  /** The id was given out and its service is closed. */
  ghost predicate Gone(s: State, id: Id) {
    id in s.issued && id !in s.tables.services
  }

  lemma DestroyFindsIssued(side: Side, s: State, t: Thread)
    requires Valid(s) && Enabled(s, Lookup(t)) && PcOf(s, t).req.Destroy? && PcOf(s, t).id.Some?
    ensures Gone(Apply(side, s, Lookup(t)), PcOf(s, t).id.value)
  {
    assert ThreadOk(s, s.pcs[t]);
  }

  /** Whether it finds the service or not, a Close or Finalize leaves it closed. */
  lemma CloseForgets(side: Side, es: seq<Event>, t: Thread)
    requires Exec(side, Init(), es).Some?
    requires var s := Exec(side, Init(), es).value; Enabled(s, Lookup(t)) && PcOf(s, t).req.Destroy? && PcOf(s, t).id.Some?
    ensures var s := Exec(side, Init(), es).value; Gone(Apply(side, s, Lookup(t)), PcOf(s, t).id.value)
  {
    ExecRefines(side, Init(), es);
    DestroyFindsIssued(side, Exec(side, Init(), es).value, t);
  }

  /** Once a service is closed, and for ever after, every service-level call with its id is answered
      ErrNoInstance, whether or not the plugin shuts down. */
  lemma ClosedServiceIsGone(side: Side, s: State, id: Id, later: seq<Event>, t: Thread, shutdown: bool)
    requires Gone(s, id) && Exec(side, s, later).Some?
    requires var pc := PcOf(Exec(side, s, later).value, t);
             pc.Sent? && pc.id == Some(id) && !pc.req.UseKey? && !pc.req.Create?
    ensures var s' := Exec(side, s, later).value; var req := PcOf(s', t).req;
            PcOf(Apply(side, s', Lookup(t)), t) == Answered(req, Missing, None) &&
            Shown(side, RpcOf(req), Missing, shutdown) == ErrNoInstance
  {
    IdsNeverReturn(side, s, later, id);
  }

  // ---- Keys ---------------------------------------------------------------------------------------------

  ghost predicate KeysAnswered(d: Direct) {
    forall t :: t in d.pcs && (d.pcs[t].Replied? || d.pcs[t].Told?) && d.pcs[t].req.UseKey? ==> !d.pcs[t].o.Missing?
  }

  lemma {:induction false} ExecKeysAnswered(d: Direct, es: seq<Event>)
    requires KeysAnswered(d) && DirectExec(d, es).Some?
    ensures KeysAnswered(DirectExec(d, es).value)
    decreases |es|
  {
    if es == [] {
    } else {
      var d' := DirectApply(d, es[0]);
      forall t | t in d'.pcs && (d'.pcs[t].Replied? || d'.pcs[t].Told?) && d'.pcs[t].req.UseKey?
        ensures !d'.pcs[t].o.Missing?
      {
      }
      ExecKeysAnswered(d', es[1..]);
    }
  }

  /** A key that somebody refers to is never missing on the server, although the cleanup of other keys
      runs at any time and the service it came from may be closed. */
  lemma KeysAreNeverMissing(side: Side, es: seq<Event>, t: Thread)
    requires Exec(side, Init(), es).Some?
    requires var pc := PcOf(Exec(side, Init(), es).value, t); pc.Returned? && pc.req.UseKey?
    ensures !PcOf(Exec(side, Init(), es).value, t).o.Missing?
  {
    RegistryRefinesDirectUse(side, es);
    ExecKeysAnswered(NOTHING, es);
  }
}
