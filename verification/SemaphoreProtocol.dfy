/** Concurrent callers of one semaphore, kms/pkcs11/internal/session/semaphore.go.

    Every critical section without a blocking operation is one event, enabled while `mu` is free.
    Close keeps `mu` across its sends, so each send is an event of its own: a rendezvous with the
    addressed waiter. The two selects of acquireInternal are separate events too.

    A caller is one call of Acquire together with its later Release, or one call of Close; the
    context of each caller can end at any time. */
module SemaphoreProtocol {
  import opened Common
  import opened Semaphore

  type Caller = nat

  datatype Pc =
    | Idle                                  // before the call, or after it returned without a token
    | Waiting(ch: Chan, closer: bool)       // in the select of line 98
    | Leaving(ch: Chan, closer: bool)       // took the done case, needs `mu` at line 100
    | Woken(failed: bool, closer: bool)     // received from ready (failed: a non-nil error), at line 118
    | GivingBack(failed: bool, closer: bool)  // about to call Release at line 120
    | Holding                               // Acquire returned nil
    | Sending(rest: seq<Chan>)              // in Close's loop with `mu` held
    | Drained                               // Close returned nil

  datatype Fault = NoFault | Panicked | Wrapped

  /** owners[ch] made channel ch, so `owners` is the arrival order at the queue. Three history
      variables: `grants` lists the channels notify closed, in order, `spurious` counts the calls
      of Release at line 120 that follow a wakeup carrying Close's error, and `closer` is the
      caller whose Close went past line 58. */
  datatype State = State(
    f: Fields,
    mu: Option<Caller>,
    pcs: map<Caller, Pc>,
    done: set<Caller>,
    owners: seq<Caller>,
    grants: seq<Chan>,
    spurious: nat,
    closer: Option<Caller>,
    fault: Fault,
    limit: uint)

  datatype Event =
    | Cancel(t: Caller)          // the caller's context ends
    | Renew(t: Caller)           // an idle caller comes back with a new context
    | CallAcquire(t: Caller)
    | CallClose(t: Caller)
    | SendError(t: Caller, to: Caller)
    | FinishClose(t: Caller)
    | TakeDone(t: Caller)
    | TakeReady(t: Caller)
    | Inspect(t: Caller)
    | Leave(t: Caller)
    | GiveBack(t: Caller)
    | CallRelease(t: Caller)

  function PcOf(s: State, t: Caller): Pc {
    if t in s.pcs then s.pcs[t] else Idle
  }

  function Init(limit: uint): State {
    State(Fields(limit, 0, [], false, {}), None, map[], {}, [], [], 0, None, NoFault, limit)
  }

  predicate Enabled(s: State, e: Event) {
    s.fault != Panicked &&
    match e
    case Cancel(t) => true
    case Renew(t) => PcOf(s, t).Idle?
    case CallAcquire(t) => PcOf(s, t).Idle? && s.mu.None?
    case CallClose(t) => PcOf(s, t).Idle? && s.mu.None?
    case SendError(t, to) =>
      s.mu == Some(t) && PcOf(s, t).Sending? && PcOf(s, t).rest != [] &&
      PcOf(s, to).Waiting? && PcOf(s, to).ch == PcOf(s, t).rest[0]
    case FinishClose(t) => s.mu == Some(t) && PcOf(s, t) == Sending([])
    case TakeDone(t) => PcOf(s, t).Waiting? && t in s.done
    case TakeReady(t) => PcOf(s, t).Waiting? && PcOf(s, t).ch in s.f.granted
    case Inspect(t) => PcOf(s, t).Woken?
    case Leave(t) => PcOf(s, t).Leaving? && s.mu.None?
    case GiveBack(t) => PcOf(s, t).GivingBack? && s.mu.None?
    case CallRelease(t) => PcOf(s, t).Holding? && s.mu.None?
  }

  function NewGrants(before: Fields, after: Fields): seq<Chan> {
    if before.waiters != [] && before.waiters[0] in after.granted then [before.waiters[0]] else []
  }

  /** The state in which caller t moved on to pc and the fields became f; what notify granted in
      between is appended to the history. */
  function Moved(s: State, t: Caller, pc: Pc, f: Fields): State {
    s.(pcs := s.pcs[t := pc], f := f, grants := s.grants + NewGrants(s.f, f))
  }

  /** Where acquireInternal leaves the caller. */
  function AfterAttempt(s: State, t: Caller, closer: bool, f: Fields, o: Outcome): State {
    match o
    case Acquired => Moved(s, t, if closer then Drained else Holding, f)
    case Queued => Moved(s, t, Waiting(|s.owners|, closer), f).(owners := s.owners + [t])
    case _ => Moved(s, t, Idle, f)
  }

  function AfterRelease(s: State, t: Caller): State {
    match Release(s.f)
    case Some(f) => Moved(s, t, Idle, f)
    case None => s.(pcs := s.pcs[t := Idle], fault := Panicked)
  }

  function Apply(s: State, e: Event): State
    requires Enabled(s, e)
  {
    match e
    case Cancel(t) => s.(done := s.done + {t})
    case Renew(t) => s.(done := s.done - {t})
    case CallAcquire(t) =>
      var (f, o) := Acquire(s.f, t in s.done, |s.owners|);
      AfterAttempt(s, t, false, f, o)
    case CallClose(t) =>
      if s.f.closed then s
      else s.(mu := Some(t), closer := Some(t), pcs := s.pcs[t := Sending(s.f.waiters)])
    case SendError(t, to) =>
      var pc := PcOf(s, to);
      s.(pcs := s.pcs[t := Sending(PcOf(s, t).rest[1..])][to := Woken(true, pc.closer)])
    case FinishClose(t) =>
      var (f, o) := AcquireInternal(MarkClosed(s.f), t in s.done, |s.owners|);
      AfterAttempt(s.(f := MarkClosed(s.f), mu := None), t, true, f, o)
    case TakeDone(t) => s.(pcs := s.pcs[t := Leaving(PcOf(s, t).ch, PcOf(s, t).closer)])
    case TakeReady(t) =>
      s.(pcs := s.pcs[t := Woken(false, PcOf(s, t).closer)], f := s.f.(granted := s.f.granted - {PcOf(s, t).ch}))
    case Inspect(t) =>
      var pc := PcOf(s, t);
      if t in s.done then s.(pcs := s.pcs[t := GivingBack(pc.failed, pc.closer)])
      else if pc.failed then s.(pcs := s.pcs[t := Idle])
      else s.(pcs := s.pcs[t := if pc.closer then Drained else Holding])
    case Leave(t) =>
      var ch := PcOf(s, t).ch;
      var s' := Moved(s, t, Idle, Withdraw(s.f, ch));
      if ch in s.f.granted && s.f.cur == 0 then s'.(fault := Wrapped) else s'
    case GiveBack(t) =>
      AfterRelease(s.(spurious := s.spurious + if PcOf(s, t).failed then 1 else 0), t)
    case CallRelease(t) => AfterRelease(s, t)
  }

  /** The state a sequence of events leads to, if every event is enabled when its turn comes. */
  function Exec(s: State, es: seq<Event>): Option<State>
    decreases |es|
  {
    if es == [] then Some(s)
    else if Enabled(s, es[0]) then Exec(Apply(s, es[0]), es[1..])
    else None
  }

  // ---- The invariant -------------------------------------------------------------------------

  predicate InQueue(pc: Pc) {
    pc.Waiting? || pc.Leaving?
  }

  /** Callers that received a token and did not give it back yet. */
  predicate HasToken(pc: Pc) {
    pc.Holding? || pc.Drained? || ((pc.Woken? || pc.GivingBack?) && !pc.failed)
  }

  function TokenCallers(pcs: map<Caller, Pc>): set<Caller> {
    set t | t in pcs && HasToken(pcs[t])
  }

  /** Tokens held plus tokens granted but not yet claimed. */
  function Tokens(s: State): nat {
    |TokenCallers(s.pcs)| + |s.f.granted|
  }

  /** The waiters Close still has to wake, or everybody in the queue. */
  function Live(s: State): seq<Chan> {
    if s.mu.Some? && PcOf(s, s.mu.value).Sending? then PcOf(s, s.mu.value).rest else s.f.waiters
  }

  ghost predicate MutexHeld(s: State) {
    && (s.mu.Some? ==> PcOf(s, s.mu.value).Sending? && !s.f.closed && s.closer == s.mu)
    && (forall t :: t in s.pcs && s.pcs[t].Sending? ==> s.mu == Some(t))
  }

  ghost predicate QueueOrder(s: State) {
    && Increasing(s.f.waiters)
    && Increasing(Live(s))
    && Members(Live(s)) <= Members(s.f.waiters)
    && (forall ch :: ch in Members(s.f.waiters) ==> ch < |s.owners|)
    && s.f.granted !! Members(s.f.waiters)
  }

  /** The channels somebody still has to receive from are exactly those of the callers in the
      queue, one each. */
  ghost predicate Linked(open: set<Chan>, pcs: map<Caller, Pc>, owners: seq<Caller>) {
    && (forall ch :: ch in open ==>
          ch < |owners| && owners[ch] in pcs && InQueue(pcs[owners[ch]]) && pcs[owners[ch]].ch == ch)
    && (forall t :: t in pcs && InQueue(pcs[t]) ==>
          pcs[t].ch in open && pcs[t].ch < |owners| && owners[pcs[t].ch] == t)
  }

  ghost function Open(s: State): set<Chan> {
    Members(Live(s)) + s.f.granted
  }

  ghost predicate Channels(s: State) {
    MutexHeld(s) && QueueOrder(s) && Linked(Open(s), s.pcs, s.owners)
  }

  /** Exact accounting: the counter is off by exactly the spurious releases. */
  ghost predicate Accounting(s: State) {
    if s.fault.NoFault? then s.f.cur + s.spurious == Tokens(s) else s.spurious > 0
  }

  /** Nobody waits while there is capacity. */
  ghost predicate NoLostWakeup(s: State) {
    s.f.waiters != [] ==> s.f.cur >= s.f.size
  }

  ghost predicate Capacity(s: State) {
    && 1 <= s.limit
    && s.f.size == (if s.f.closed then 1 else s.limit)
    && (s.fault.NoFault? ==> s.f.cur <= s.limit)
  }

  /** After Close started to drain, only the closer can be in the queue, and once it has its token
      the counter is at most one. */
  predicate IsCloser(pc: Pc) {
    pc.Drained? || ((pc.Waiting? || pc.Leaving? || pc.Woken? || pc.GivingBack?) && pc.closer)
  }

  ghost predicate Closing(s: State) {
    && (forall t :: t in s.pcs && IsCloser(s.pcs[t]) ==> s.closer == Some(t) && s.f.closed)
    && (s.f.closed ==> s.closer.Some? && CloserAlone(s.f, PcOf(s, s.closer.value), s.fault))
  }

  ghost predicate CloserAlone(f: Fields, pc: Pc, fault: Fault) {
    && (IsCloser(pc) && (pc.Woken? || pc.GivingBack?) ==> !pc.failed)
    && (f.waiters != [] ==> IsCloser(pc) && InQueue(pc) && f.waiters == [pc.ch])
    && (IsCloser(pc) && (HasToken(pc) || (InQueue(pc) && pc.ch in f.granted)) ==> fault.NoFault? ==> f.cur <= 1)
  }

  ghost predicate Fifo(s: State) {
    InOrder(s.grants, s.f.waiters, |s.owners|)
  }

  ghost predicate InOrder(grants: seq<Chan>, waiters: seq<Chan>, arrived: nat) {
    && Increasing(grants)
    && (grants != [] ==> grants[|grants| - 1] < arrived)
    && (grants != [] ==> forall w :: w in Members(waiters) ==> grants[|grants| - 1] < w)
  }

  ghost predicate Valid(s: State) {
    && Channels(s)
    && Accounting(s)
    && NoLostWakeup(s)
    && Capacity(s)
    && Closing(s)
    && Fifo(s)
  }

  // ---- Preservation --------------------------------------------------------------------------

  lemma TokenCount(pcs: map<Caller, Pc>, t: Caller, pc: Pc)
    ensures |TokenCallers(pcs[t := pc])| ==
            |TokenCallers(pcs)| + (if HasToken(pc) then 1 else 0) - (if t in pcs && HasToken(pcs[t]) then 1 else 0)
  {
    assert TokenCallers(pcs[t := pc]) == if HasToken(pc) then TokenCallers(pcs) + {t} else TokenCallers(pcs) - {t};
  }

  /** What releasing a token does: the first waiter inherits it, or the counter drops. */
  ghost predicate PassedOn(f: Fields, r: Fields) {
    || r == f.(cur := Decrement(f.cur))
    || (f.waiters != [] && r == f.(waiters := f.waiters[1..], granted := f.granted + {f.waiters[0]}))
  }

  lemma ReleasePassesOn(f: Fields)
    requires f.waiters != [] ==> f.cur >= f.size
    ensures Release(f).Some? ==> PassedOn(f, Release(f).value)
  {
  }

  lemma WithdrawPassesOn(f: Fields, ch: Chan)
    requires f.waiters != [] ==> f.cur >= f.size
    ensures ch in f.granted ==> PassedOn(f.(granted := f.granted - {ch}), Withdraw(f, ch))
    ensures ch !in f.granted ==> Withdraw(f, ch) == f.(waiters := Without(f.waiters, ch))
  {
  }

  lemma LinkedMove(open: set<Chan>, pcs: map<Caller, Pc>, owners: seq<Caller>, t: Caller, pc: Pc)
    requires Linked(open, pcs, owners)
    requires t in pcs && InQueue(pcs[t]) ==> InQueue(pc) && pc.ch == pcs[t].ch
    requires InQueue(pc) ==> t in pcs && InQueue(pcs[t])
    ensures Linked(open, pcs[t := pc], owners)
  {
  }

  lemma LinkedArrive(open: set<Chan>, pcs: map<Caller, Pc>, owners: seq<Caller>, t: Caller, closer: bool)
    requires Linked(open, pcs, owners)
    requires t in pcs ==> !InQueue(pcs[t])
    ensures Linked(open + {|owners|}, pcs[t := Waiting(|owners|, closer)], owners + [t])
  {
  }

  lemma LinkedDepart(open: set<Chan>, pcs: map<Caller, Pc>, owners: seq<Caller>, t: Caller, pc: Pc)
    requires Linked(open, pcs, owners)
    requires t in pcs && InQueue(pcs[t]) && !InQueue(pc)
    ensures Linked(open - {pcs[t].ch}, pcs[t := pc], owners)
  {
  }

  lemma ChannelsLocal(s: State, e: Event)
    requires Channels(s) && Enabled(s, e)
    requires e.Cancel? || e.Renew? || e.CallClose? || e.TakeDone? || e.Inspect?
    ensures Channels(Apply(s, e))
  {
    LinkedMove(Open(s), s.pcs, s.owners, e.t, PcOf(Apply(s, e), e.t));
  }

  lemma ChannelsTakeReady(s: State, e: Event)
    requires Channels(s) && Enabled(s, e) && e.TakeReady?
    ensures Channels(Apply(s, e))
  {
    LinkedDepart(Open(s), s.pcs, s.owners, e.t, PcOf(Apply(s, e), e.t));
    assert Open(Apply(s, e)) == Open(s) - {PcOf(s, e.t).ch};
  }

  lemma ChannelsSendError(s: State, e: Event)
    requires Channels(s) && Enabled(s, e) && e.SendError?
    ensures Channels(Apply(s, e))
  {
    var rest := PcOf(s, e.t).rest;
    MembersOfTail(rest);
    LinkedMove(Open(s), s.pcs, s.owners, e.t, Sending(rest[1..]));
    LinkedDepart(Open(s), s.pcs[e.t := Sending(rest[1..])], s.owners, e.to, PcOf(Apply(s, e), e.to));
    assert Open(Apply(s, e)) == Open(s) - {rest[0]};
  }

  lemma ChannelsAcquire(s: State, e: Event)
    requires Channels(s) && Enabled(s, e) && e.CallAcquire?
    ensures Channels(Apply(s, e))
  {
    var s' := Apply(s, e);
    if PcOf(s', e.t).Waiting? {
      MembersOfExtension(s.f.waiters, |s.owners|);
      LinkedArrive(Open(s), s.pcs, s.owners, e.t, false);
      assert s'.f == s.f.(waiters := s.f.waiters + [|s.owners|]);
      assert QueueOrder(s');
      assert Open(s') == Open(s) + {|s.owners|};
    } else {
      LinkedMove(Open(s), s.pcs, s.owners, e.t, PcOf(s', e.t));
    }
  }

  lemma ChannelsFinishClose(s: State, e: Event)
    requires Channels(s) && Enabled(s, e) && e.FinishClose?
    ensures Channels(Apply(s, e))
  {
    var s' := Apply(s, e);
    if PcOf(s', e.t).Waiting? {
      assert [] + [|s.owners|] == [|s.owners|];
      LinkedArrive(Open(s), s.pcs, s.owners, e.t, true);
      assert Open(s') == Open(s) + {|s.owners|};
    } else {
      LinkedMove(Open(s), s.pcs, s.owners, e.t, PcOf(s', e.t));
    }
  }

  lemma ChannelsReturn(s: State, e: Event)
    requires Channels(s) && NoLostWakeup(s) && Enabled(s, e)
    requires e.GiveBack? || e.CallRelease?
    ensures Channels(Apply(s, e))
  {
    ReleasePassesOn(s.f);
    if s.f.waiters != [] {
      MembersOfTail(s.f.waiters);
    }
    LinkedMove(Open(s), s.pcs, s.owners, e.t, Idle);
    assert Open(Apply(s, e)) == Open(s);
  }

  lemma ChannelsLeave(s: State, e: Event)
    requires Channels(s) && NoLostWakeup(s) && Enabled(s, e) && e.Leave?
    ensures Channels(Apply(s, e))
  {
    var ch, s' := PcOf(s, e.t).ch, Apply(s, e);
    LinkedDepart(Open(s), s.pcs, s.owners, e.t, Idle);
    if ch in s.f.granted {
      WithdrawPassesOn(s.f, ch);
      if s.f.waiters != [] {
        MembersOfTail(s.f.waiters);
      }
      assert QueueOrder(s');
      assert Open(s') == Open(s) - {ch};
    } else {
      assert s'.f == s.f.(waiters := Without(s.f.waiters, ch)) by {
        WithdrawPassesOn(s.f, ch);
      }
      MembersWithout(s.f.waiters, ch);
      assert QueueOrder(s');
      assert Open(s') == Open(s) - {ch};
    }
  }

  lemma ChannelsPreserved(s: State, e: Event)
    requires Channels(s) && NoLostWakeup(s) && Enabled(s, e)
    ensures Channels(Apply(s, e))
  {
    match e
    case CallAcquire(_) => ChannelsAcquire(s, e);
    case SendError(_, _) => ChannelsSendError(s, e);
    case FinishClose(_) => ChannelsFinishClose(s, e);
    case TakeReady(_) => ChannelsTakeReady(s, e);
    case Leave(_) => ChannelsLeave(s, e);
    case GiveBack(_) => ChannelsReturn(s, e);
    case CallRelease(_) => ChannelsReturn(s, e);
    case _ => ChannelsLocal(s, e);
  }

  lemma AccountingLocal(s: State, e: Event)
    requires Channels(s) && Accounting(s) && Enabled(s, e)
    requires e.Cancel? || e.Renew? || e.CallClose? || e.TakeDone? || e.TakeReady? || e.Inspect?
    ensures Accounting(Apply(s, e))
  {
    TokenCount(s.pcs, e.t, PcOf(Apply(s, e), e.t));
  }

  lemma AccountingAcquire(s: State, e: Event)
    requires Channels(s) && Accounting(s) && Enabled(s, e) && e.CallAcquire?
    ensures Accounting(Apply(s, e))
  {
    TokenCount(s.pcs, e.t, PcOf(Apply(s, e), e.t));
  }

  lemma AccountingFinishClose(s: State, e: Event)
    requires Channels(s) && Accounting(s) && Enabled(s, e) && e.FinishClose?
    ensures Accounting(Apply(s, e))
  {
    TokenCount(s.pcs, e.t, PcOf(Apply(s, e), e.t));
  }

  lemma AccountingSendError(s: State, e: Event)
    requires Channels(s) && Accounting(s) && Enabled(s, e) && e.SendError?
    ensures Accounting(Apply(s, e))
  {
    var pc := Sending(PcOf(s, e.t).rest[1..]);
    TokenCount(s.pcs, e.t, pc);
    TokenCount(s.pcs[e.t := pc], e.to, PcOf(Apply(s, e), e.to));
  }

  /** A token that is passed on keeps the balance; one that is not lowers the counter by one. */
  lemma PassedOnBalance(f: Fields, r: Fields)
    requires PassedOn(f, r) && f.cur > 0
    requires f.granted !! Members(f.waiters)
    ensures r.cur - |r.granted| == f.cur - |f.granted| - 1
  {
    if f.waiters != [] {
      assert f.waiters[0] in Members(f.waiters);
    }
  }

  lemma AccountingReturn(s: State, e: Event)
    requires Channels(s) && NoLostWakeup(s) && Accounting(s) && Enabled(s, e)
    requires e.GiveBack? || e.CallRelease?
    ensures Accounting(Apply(s, e))
  {
    TokenCount(s.pcs, e.t, Idle);
    if s.f.cur > 0 {
      ReleasePassesOn(s.f);
      PassedOnBalance(s.f, Release(s.f).value);
    }
  }

  lemma AccountingLeave(s: State, e: Event)
    requires Channels(s) && NoLostWakeup(s) && Accounting(s) && Enabled(s, e) && e.Leave?
    ensures Accounting(Apply(s, e))
  {
    var ch := PcOf(s, e.t).ch;
    TokenCount(s.pcs, e.t, Idle);
    WithdrawPassesOn(s.f, ch);
    if ch in s.f.granted && s.f.cur > 0 {
      PassedOnBalance(s.f.(granted := s.f.granted - {ch}), Withdraw(s.f, ch));
    }
  }

  lemma AccountingPreserved(s: State, e: Event)
    requires Channels(s) && NoLostWakeup(s) && Accounting(s) && Enabled(s, e)
    ensures Accounting(Apply(s, e))
  {
    match e
    case SendError(_, _) => AccountingSendError(s, e);
    case Leave(_) => AccountingLeave(s, e);
    case GiveBack(_) => AccountingReturn(s, e);
    case CallRelease(_) => AccountingReturn(s, e);
    case CallAcquire(_) => AccountingAcquire(s, e);
    case FinishClose(_) => AccountingFinishClose(s, e);
    case _ => AccountingLocal(s, e);
  }

  lemma QueuePreserved(s: State, e: Event)
    requires Channels(s) && NoLostWakeup(s) && Capacity(s) && Enabled(s, e)
    ensures NoLostWakeup(Apply(s, e)) && Capacity(Apply(s, e))
  {
  }

  lemma OrderPassesOn(f: Fields, r: Fields, grants: seq<Chan>, arrived: nat)
    requires InOrder(grants, f.waiters, arrived) && PassedOn(f, r)
    requires Increasing(f.waiters) && f.granted !! Members(f.waiters)
    requires forall w :: w in Members(f.waiters) ==> w < arrived
    ensures InOrder(grants + NewGrants(f, r), r.waiters, arrived)
  {
    if f.waiters != [] {
      MembersOfTail(f.waiters);
    }
  }

  lemma FifoReturn(s: State, e: Event)
    requires Channels(s) && NoLostWakeup(s) && Fifo(s) && Enabled(s, e)
    requires e.GiveBack? || e.CallRelease?
    ensures Fifo(Apply(s, e))
  {
    ReleasePassesOn(s.f);
    if s.f.cur > 0 {
      OrderPassesOn(s.f, Release(s.f).value, s.grants, |s.owners|);
    }
  }

  lemma FifoLeave(s: State, e: Event)
    requires Channels(s) && NoLostWakeup(s) && Fifo(s) && Enabled(s, e) && e.Leave?
    ensures Fifo(Apply(s, e))
  {
    var ch := PcOf(s, e.t).ch;
    WithdrawPassesOn(s.f, ch);
    if ch in s.f.granted {
      OrderPassesOn(s.f.(granted := s.f.granted - {ch}), Withdraw(s.f, ch), s.grants, |s.owners|);
    } else {
      MembersWithout(s.f.waiters, ch);
      assert Apply(s, e).grants == s.grants;
    }
  }

  lemma FifoElsewhere(s: State, e: Event)
    requires Channels(s) && Fifo(s) && Enabled(s, e)
    requires !e.CallAcquire? && !e.Leave? && !e.GiveBack? && !e.CallRelease?
    ensures Fifo(Apply(s, e))
  {
    assert Apply(s, e).grants == s.grants;
  }

  lemma FifoAcquire(s: State, e: Event)
    requires Channels(s) && Fifo(s) && Enabled(s, e) && e.CallAcquire?
    ensures Fifo(Apply(s, e))
  {
    MembersOfExtension(s.f.waiters, |s.owners|);
    assert Apply(s, e).grants == s.grants;
  }

  lemma FifoPreserved(s: State, e: Event)
    requires Channels(s) && NoLostWakeup(s) && Fifo(s) && Enabled(s, e)
    ensures Fifo(Apply(s, e))
  {
    match e
    case CallAcquire(_) => FifoAcquire(s, e);
    case Leave(_) => FifoLeave(s, e);
    case GiveBack(_) => FifoReturn(s, e);
    case CallRelease(_) => FifoReturn(s, e);
    case _ => FifoElsewhere(s, e);
  }

  lemma ClosingLocal(s: State, e: Event)
    requires Channels(s) && Closing(s) && Enabled(s, e)
    requires e.Cancel? || e.Renew? || e.CallClose? || e.TakeDone? || e.TakeReady? || e.Inspect? || e.SendError?
    ensures Closing(Apply(s, e))
  {
  }

  lemma ClosingAttempt(s: State, e: Event)
    requires Channels(s) && Closing(s) && Enabled(s, e)
    requires e.CallAcquire? || e.FinishClose?
    ensures Closing(Apply(s, e))
  {
  }

  lemma ClosingReturn(s: State, e: Event)
    requires Channels(s) && NoLostWakeup(s) && Capacity(s) && Closing(s) && Enabled(s, e)
    requires e.GiveBack? || e.CallRelease?
    ensures Closing(Apply(s, e))
  {
  }

  lemma ClosingLeave(s: State, e: Event)
    requires Channels(s) && NoLostWakeup(s) && Capacity(s) && Closing(s) && Enabled(s, e) && e.Leave?
    ensures Closing(Apply(s, e))
  {
  }

  lemma ClosingPreserved(s: State, e: Event)
    requires Channels(s) && NoLostWakeup(s) && Capacity(s) && Closing(s) && Enabled(s, e)
    ensures Closing(Apply(s, e))
  {
    match e
    case Leave(_) => ClosingLeave(s, e);
    case GiveBack(_) => ClosingReturn(s, e);
    case CallRelease(_) => ClosingReturn(s, e);
    case CallAcquire(_) => ClosingAttempt(s, e);
    case FinishClose(_) => ClosingAttempt(s, e);
    case _ => ClosingLocal(s, e);
  }
}
