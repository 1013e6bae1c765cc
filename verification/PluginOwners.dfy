/** Who reaches which object through a plugin, over every run: a client reaches the object it opened, until
    somebody closes it, and nobody else does; and no key is forgotten on the server. */
module PluginOwners {
  import opened Common
  import opened PluginWire
  import opened PluginRegistry
  import opened PluginRefinement

  /** A call of a service or wrapper that is already open. */
  predicate OfService(req: Request) {
    req.Use? || req.MakeKey? || req.Destroy?
  }

  /** The Open of client c made the object. */
  ghost predicate OpenedBy(asked: seq<(Ref, Request)>, ref: Ref, c: Client) {
    exists i :: 0 <= i < |asked| && asked[i] == (ref, Create(c))
  }

  /** The object's Close or Finalize was called, or is being called. */
  ghost predicate ClosedOff(s: State, ref: Ref) {
    (exists i :: 0 <= i < |s.asked| && s.asked[i].0 == ref && s.asked[i].1.Destroy?) || BeingClosed(s.pcs, ref)
  }

  ghost predicate BeingClosed(pcs: map<Thread, Pc>, ref: Ref) {
    exists t :: t in pcs && pcs[t].Calling? && pcs[t].ref == ref && pcs[t].req.Destroy?
  }

  /** The id is that of the object client c opened, and it is registered unless the object is closed. */
  ghost predicate Known(s: State, id: Id, c: Client) {
    id in s.issued && OpenedBy(s.asked, s.issued[id], c) && (id in s.tables.services || ClosedOff(s, s.issued[id]))
  }

  ghost predicate PcKnown(s: State, pc: Pc) {
    match pc
    case Sent(id, req) => OfService(req) && id.Some? ==> Known(s, id.value, req.c)
    case Calling(ref, req) => OfService(req) ==> OpenedBy(s.asked, ref, req.c)
    case Registering(ref, req) => req.Create? ==> OpenedBy(s.asked, ref, req.c)
    case Answered(req, o, id) =>
      && (req.Create? && id.Some? ==> Known(s, id.value, req.c))
      && (req.Create? && o.Done? ==> id.Some?)
    case Returned(req, _, o) => req.Create? && o.Done? ==> req.c in s.clients
    case Idle => true
  }

  /** Every call of a service comes after the Open of its client made that object. */
  ghost predicate LogOwned(asked: seq<(Ref, Request)>) {
    forall i :: 0 <= i < |asked| && OfService(asked[i].1) ==> OpenedBy(asked[..i], asked[i].0, asked[i].1.c)
  }

  ghost predicate Owned(s: State) {
    && LogOwned(s.asked)
    && (forall c :: c in s.clients ==> Known(s, s.clients[c], c))
    && (forall t :: t in s.pcs ==> PcKnown(s, s.pcs[t]))
  }

  /** What no event takes back. */
  ghost predicate Keeps(s: State, s': State) {
    && s.asked <= s'.asked
    && (forall c :: c in s.clients ==> c in s'.clients)
    && (forall id :: id in s.issued ==> id in s'.issued && s'.issued[id] == s.issued[id])
    && (forall ref :: ClosedOff(s, ref) ==> ClosedOff(s', ref))
    && (forall id :: id in s.tables.services && id in s.issued ==>
          id in s'.tables.services || ClosedOff(s', s.issued[id]))
  }

  lemma OpenedStays(asked: seq<(Ref, Request)>, asked': seq<(Ref, Request)>, ref: Ref, c: Client)
    requires asked <= asked' && OpenedBy(asked, ref, c)
    ensures OpenedBy(asked', ref, c)
  {
    var i :| 0 <= i < |asked| && asked[i] == (ref, Create(c));
    assert asked'[i] == (ref, Create(c));
  }

  lemma KnownStays(s: State, s': State, id: Id, c: Client)
    requires Keeps(s, s') && Known(s, id, c)
    ensures Known(s', id, c)
  {
    OpenedStays(s.asked, s'.asked, s.issued[id], c);
  }

  lemma PcStays(s: State, s': State, pc: Pc)
    requires Keeps(s, s') && PcKnown(s, pc)
    ensures PcKnown(s', pc)
  {
    match pc
    case Sent(id, req) =>
      if OfService(req) && id.Some? {
        KnownStays(s, s', id.value, req.c);
      }
    case Calling(ref, req) =>
      if OfService(req) {
        OpenedStays(s.asked, s'.asked, ref, req.c);
      }
    case Registering(ref, req) =>
      if req.Create? {
        OpenedStays(s.asked, s'.asked, ref, req.c);
      }
    case Answered(req, o, id) =>
      if req.Create? && id.Some? {
        KnownStays(s, s', id.value, req.c);
      }
    case _ =>
  }

  lemma ClosedOffStays(s: State, s': State, ref: Ref)
    requires s.asked <= s'.asked && ClosedOff(s, ref)
    requires BeingClosed(s.pcs, ref) ==> ClosedOff(s', ref)
    ensures ClosedOff(s', ref)
  {
    if !BeingClosed(s.pcs, ref) {
      var i :| 0 <= i < |s.asked| && s.asked[i].0 == ref && s.asked[i].1.Destroy?;
      assert s'.asked[i] == s.asked[i];
    }
  }

  /** A Close that returns is in the log. */
  lemma RespondCloses(side: Side, s: State, e: Event, ref: Ref)
    requires Enabled(s, e) && e.Respond? && BeingClosed(s.pcs, ref)
    ensures ClosedOff(Apply(side, s, e), ref)
  {
    var s' := Apply(side, s, e);
    var t :| t in s.pcs && s.pcs[t].Calling? && s.pcs[t].ref == ref && s.pcs[t].req.Destroy?;
    if t == e.t {
      assert s'.asked[|s.asked|] == (ref, s.pcs[t].req);
    } else {
      assert s'.pcs[t] == s.pcs[t];
    }
  }

  lemma OthersClose(side: Side, s: State, e: Event, ref: Ref)
    requires Enabled(s, e) && !e.Respond? && BeingClosed(s.pcs, ref)
    ensures BeingClosed(Apply(side, s, e).pcs, ref)
  {
    var t :| t in s.pcs && s.pcs[t].Calling? && s.pcs[t].ref == ref && s.pcs[t].req.Destroy?;
    assert Apply(side, s, e).pcs[t] == s.pcs[t];
  }

  lemma CloseKept(side: Side, s: State, e: Event, ref: Ref)
    requires Enabled(s, e) && ClosedOff(s, ref)
    ensures ClosedOff(Apply(side, s, e), ref)
  {
    RecordsResponses(side, s, e);
    if BeingClosed(s.pcs, ref) {
      if e.Respond? {
        RespondCloses(side, s, e, ref);
      } else {
        OthersClose(side, s, e, ref);
      }
    }
    ClosedOffStays(s, Apply(side, s, e), ref);
  }

  /** A service leaves the map only into the hands of a thread that calls its Close. */
  lemma ServiceKept(side: Side, s: State, e: Event, id: Id)
    requires TablesOk(s.tables, s.issued) && Enabled(s, e) && id in s.tables.services
    ensures var s' := Apply(side, s, e); id in s'.tables.services || BeingClosed(s'.pcs, s.issued[id])
  {
    if e.Lookup? {
      LookupKeeps(side, s, e, id);
    } else {
      ElseKeeps(side, s, e, id);
    }
  }

  lemma LookupKeeps(side: Side, s: State, e: Event, id: Id)
    requires TablesOk(s.tables, s.issued) && e.Lookup? && Enabled(s, e) && id in s.tables.services
    ensures var s' := Apply(side, s, e); id in s'.tables.services || BeingClosed(s'.pcs, s.issued[id])
  {
    var s' := Apply(side, s, e);
    if id !in s'.tables.services {
      assert s'.pcs[e.t] == Calling(s.issued[id], s.pcs[e.t].req);
    }
  }

  lemma ElseKeeps(side: Side, s: State, e: Event, id: Id)
    requires Enabled(s, e) && !e.Lookup? && id in s.tables.services
    ensures id in Apply(side, s, e).tables.services
  {
  }

  lemma StepGrows(side: Side, s: State, e: Event)
    requires Valid(s) && Enabled(s, e)
    ensures var s' := Apply(side, s, e);
            (forall c :: c in s.clients ==> c in s'.clients) &&
            (forall id :: id in s.issued ==> id in s'.issued && s'.issued[id] == s.issued[id])
  {
    if Quiet(e) {
      QuietShape(side, s, e);
    } else {
      LoudGrows(side, s, e);
    }
  }

  lemma LoudGrows(side: Side, s: State, e: Event)
    requires Enabled(s, e) && !Quiet(e)
    ensures var s' := Apply(side, s, e);
            (forall c :: c in s.clients ==> c in s'.clients) &&
            (forall id :: id in s.issued ==> id in s'.issued && s'.issued[id] == s.issued[id])
  {
  }

  lemma StepKeeps(side: Side, s: State, e: Event)
    requires Valid(s) && Enabled(s, e)
    ensures Keeps(s, Apply(side, s, e))
  {
    var s' := Apply(side, s, e);
    RecordsResponses(side, s, e);
    StepGrows(side, s, e);
    forall ref | ClosedOff(s, ref) ensures ClosedOff(s', ref) {
      CloseKept(side, s, e, ref);
    }
    forall id | id in s.tables.services && id in s.issued ensures id in s'.tables.services || ClosedOff(s', s.issued[id]) {
      ServiceKept(side, s, e, id);
    }
  }

  // ---- The step ------------------------------------------------------------------------------------------

  lemma OwnCall(side: Side, s: State, e: Event)
    requires Owned(s) && Enabled(s, e) && (e.Call? || e.Finish?)
    ensures PcKnown(s, PcOf(Apply(side, s, e), e.t))
  {
  }

  lemma OwnLookup(side: Side, s: State, e: Event)
    requires e.Lookup? && TablesOk(s.tables, s.issued) && Enabled(s, e) && PcKnown(s, PcOf(s, e.t))
    ensures PcKnown(s, PcOf(Apply(side, s, e), e.t))
  {
  }

  lemma OwnRespond(side: Side, s: State, e: Event)
    requires e.Respond? && Enabled(s, e)
    ensures PcKnown(Apply(side, s, e), PcOf(Apply(side, s, e), e.t))
  {
    var Calling(ref, req) := s.pcs[e.t];
    var s' := Apply(side, s, e);
    if req.Create? {
      assert s'.asked[|s.asked|] == (ref, Create(req.c));
    }
  }

  lemma OwnRegister(side: Side, s: State, e: Event)
    requires e.Register? && Enabled(s, e) && PcKnown(s, PcOf(s, e.t))
    ensures PcKnown(Apply(side, s, e), PcOf(Apply(side, s, e), e.t))
  {
    assert Apply(side, s, e).asked == s.asked;
  }

  lemma OwnReceive(side: Side, s: State, e: Event)
    requires e.Receive? && Enabled(s, e) && PcKnown(s, PcOf(s, e.t))
    ensures PcKnown(Apply(side, s, e), PcOf(Apply(side, s, e), e.t))
  {
  }

  lemma OwnThread(side: Side, s: State, e: Event)
    requires Valid(s) && Owned(s) && Enabled(s, e) && !e.DropKey? && !e.CloseKey? && Keeps(s, Apply(side, s, e))
    ensures PcKnown(Apply(side, s, e), PcOf(Apply(side, s, e), e.t))
  {
    var s' := Apply(side, s, e);
    assert e.t in s.pcs ==> PcKnown(s, s.pcs[e.t]);
    if e.Call? || e.Finish? {
      OwnCall(side, s, e);
      PcStays(s, s', PcOf(s', e.t));
    } else if e.Lookup? {
      OwnLookup(side, s, e);
      PcStays(s, s', PcOf(s', e.t));
    } else if e.Respond? {
      OwnRespond(side, s, e);
    } else if e.Register? {
      OwnRegister(side, s, e);
    } else {
      OwnReceive(side, s, e);
    }
  }

  lemma LogGrows(side: Side, s: State, e: Event)
    requires LogOwned(s.asked) && Enabled(s, e) && (e.Respond? ==> PcKnown(s, PcOf(s, e.t)))
    ensures LogOwned(Apply(side, s, e).asked)
  {
    RecordsResponses(side, s, e);
    var asked' := Apply(side, s, e).asked;
    forall i | 0 <= i < |asked'| && OfService(asked'[i].1) ensures OpenedBy(asked'[..i], asked'[i].0, asked'[i].1.c) {
      if i < |s.asked| {
        assert asked'[..i] == s.asked[..i];
      } else {
        assert asked'[..i] == s.asked;
      }
    }
  }

  /** A client's id is the one it had, or the one its Open brought it. */
  lemma ClientsChange(side: Side, s: State, e: Event, c: Client)
    requires Enabled(s, e) && c in Apply(side, s, e).clients
    ensures var s' := Apply(side, s, e);
            (c in s.clients && s'.clients[c] == s.clients[c]) ||
            (e.Receive? && s.pcs[e.t].req == Create(c) && s.pcs[e.t].id == Some(s'.clients[c]))
  {
    if Quiet(e) {
      QuietShape(side, s, e);
    }
  }

  lemma ClientKnown(side: Side, s: State, e: Event, c: Client)
    requires Owned(s) && Enabled(s, e) && Keeps(s, Apply(side, s, e)) && c in Apply(side, s, e).clients
    ensures Known(Apply(side, s, e), Apply(side, s, e).clients[c], c)
  {
    var s' := Apply(side, s, e);
    ClientsChange(side, s, e, c);
    assert e.Receive? ==> PcKnown(s, s.pcs[e.t]);
    KnownStays(s, s', s'.clients[c], c);
  }

  lemma OtherThread(side: Side, s: State, e: Event, t: Thread)
    requires Enabled(s, e) && t in Apply(side, s, e).pcs && (e.DropKey? || e.CloseKey? || t != e.t)
    ensures t in s.pcs && Apply(side, s, e).pcs[t] == s.pcs[t]
  {
    if Quiet(e) {
      QuietShape(side, s, e);
    }
  }

  lemma StepOwned(side: Side, s: State, e: Event)
    requires Valid(s) && Owned(s) && Enabled(s, e)
    ensures Owned(Apply(side, s, e))
  {
    var s' := Apply(side, s, e);
    StepKeeps(side, s, e);
    assert e.Respond? ==> PcKnown(s, s.pcs[e.t]);
    LogGrows(side, s, e);
    forall c | c in s'.clients ensures Known(s', s'.clients[c], c) {
      ClientKnown(side, s, e, c);
    }
    forall t | t in s'.pcs ensures PcKnown(s', s'.pcs[t]) {
      if !e.DropKey? && !e.CloseKey? && t == e.t {
        OwnThread(side, s, e);
      } else {
        OtherThread(side, s, e, t);
        PcStays(s, s', s.pcs[t]);
      }
    }
  }

  lemma {:induction false} ExecOwned(side: Side, s: State, es: seq<Event>)
    requires Valid(s) && Owned(s) && Exec(side, s, es).Some?
    ensures Valid(Exec(side, s, es).value) && Owned(Exec(side, s, es).value)
    decreases |es|
  {
    if es == [] {
    } else {
      StepValid(side, s, es[0]);
      StepOwned(side, s, es[0]);
      ExecOwned(side, Apply(side, s, es[0]), es[1..]);
    }
  }

  // ---- Clients and their objects --------------------------------------------------------------------------

  /** An object is called by nobody but the client whose Open made it, and not before. */
  lemma CalledByItsOwner(side: Side, es: seq<Event>, i: nat)
    requires Exec(side, Init(), es).Some?
    requires var log := Exec(side, Init(), es).value.log; i < |log| && OfService(log[i].1)
    ensures var log := Exec(side, Init(), es).value.log; exists j :: 0 <= j < i && log[j] == (log[i].0, Create(log[i].1.c))
  {
    ExecOwned(side, Init(), es);
    ExecDelivers(side, Init(), es);
    var s := Exec(side, Init(), es).value;
    assert s.log[i] == (s.asked[i].0, Arriving(s.asked[i].1));
    assert OpenedBy(s.asked[..i], s.asked[i].0, s.asked[i].1.c);
    var j :| 0 <= j < i && s.asked[..i][j] == (s.asked[i].0, Create(s.asked[i].1.c));
    assert s.log[j] == (s.asked[j].0, Arriving(s.asked[j].1));
  }

  /** A client whose Open succeeded calls its own object: its next call reaches that object, unless a Close or
      Finalize of it has been called, in which case it is answered that there is none. */
  lemma OpenedIsReached(side: Side, es: seq<Event>, c: Client, t: Thread, req: Request)
    requires Exec(side, Init(), es).Some? && c in Exec(side, Init(), es).value.clients
    requires OfService(req) && req.c == c && Enabled(Exec(side, Init(), es).value, Call(t, req))
    ensures var s := Exec(side, Init(), es).value; var id := s.clients[c];
            id in s.issued && OpenedBy(s.asked, s.issued[id], c) &&
            Enabled(Apply(side, s, Call(t, req)), Lookup(t)) &&
            var pc := PcOf(Apply(side, Apply(side, s, Call(t, req)), Lookup(t)), t);
            pc == Calling(s.issued[id], req) || (pc == Answered(req, Missing, None) && ClosedOff(s, s.issued[id]))
  {
    ExecOwned(side, Init(), es);
    assert Known(Exec(side, Init(), es).value, Exec(side, Init(), es).value.clients[c], c);
  }

  /** Whoever was told that its Open succeeded has an id from then on. */
  lemma SuccessGivesId(side: Side, es: seq<Event>, t: Thread, c: Client)
    requires Exec(side, Init(), es).Some?
    requires var pc := PcOf(Exec(side, Init(), es).value, t); pc.Returned? && pc.req == Create(c) && pc.o.Done?
    ensures c in Exec(side, Init(), es).value.clients
  {
    ExecOwned(side, Init(), es);
    assert PcKnown(Exec(side, Init(), es).value, Exec(side, Init(), es).value.pcs[t]);
  }

  /** A service is missing only for a client that has no id yet, or whose object was closed. */
  lemma MissingMeansClosed(side: Side, es: seq<Event>, t: Thread)
    requires Exec(side, Init(), es).Some?
    requires var s := Exec(side, Init(), es).value; Enabled(s, Lookup(t)) && OfService(PcOf(s, t).req)
    requires var s := Exec(side, Init(), es).value; PcOf(Apply(side, s, Lookup(t)), t).Answered?
    ensures var s := Exec(side, Init(), es).value; var id := PcOf(s, t).id;
            id.None? || (id.value in s.issued && ClosedOff(s, s.issued[id.value]))
  {
    ExecOwned(side, Init(), es);
    assert PcKnown(Exec(side, Init(), es).value, Exec(side, Init(), es).value.pcs[t]);
  }

  /** A client that has an id is refused a second Open, and nothing reaches the server. */
  lemma SecondOpenRefused(side: Side, s: State, t: Thread, c: Client)
    requires Enabled(s, Call(t, Create(c))) && c in s.clients
    ensures var s' := Apply(side, s, Call(t, Create(c))); var pc := PcOf(s', t);
            pc.Returned? && pc.seen.Text? && pc.o.Failed? && s' == s.(pcs := s.pcs[t := pc])
  {
  }

  // ---- Answers --------------------------------------------------------------------------------------------

  /** The outcome of a call is what the object returned: its error, or success; an object that was made is
      entered into a map first. */
  lemma OutcomeIsTheObjects(side: Side, s: State, t: Thread, e: Option<ObjectError>)
    requires Enabled(s, Respond(t, e))
    ensures var Calling(ref, req) := PcOf(s, t); var pc := PcOf(Apply(side, s, Respond(t, e)), t);
            if e.Some? then pc == Answered(req, Failed(e.value), None)
            else if req.Create? then pc == Registering(ref, req)
            else if req.MakeKey? then pc == Registering(s.objects, req)
            else pc == Answered(req, Done, None)
  {
  }

  /** What the caller is told of a success and of an invalid signature, by the call it made: a success is
      hidden from Close, Finalize and Init only, and exactly while the plugin shuts down. */
  lemma ToldByCall(side: Side, s: State, t: Thread, shutdown: bool)
    requires Enabled(s, Receive(t, shutdown))
    ensures var Answered(req, o, _) := PcOf(s, t); var pc := PcOf(Apply(side, s, Receive(t, shutdown)), t);
            pc.Returned? && pc.req == req && pc.o == o &&
            (pc.seen.Success? <==> o.Done? && !(Closes(req) && shutdown)) &&
            (o.Done? && !pc.seen.Success? ==> pc.seen.ErrPluginShutdown?) &&
            (pc.seen.ErrInvalidSignature? <==>
              side.Kms? && Verifies(req) && ((o.Failed? && o.e.InvalidSignature?) || StatusOf(o, InvalidArgument)))
  {
    var Answered(req, o, _) := PcOf(s, t);
    SuccessShownExactly(side, RpcOf(req), o, shutdown);
    SentinelsSurvive(RpcOf(req), o, shutdown);
  }

  // ---- Keys -----------------------------------------------------------------------------------------------

  /** The key with this id has a client, is on its way to one, or its cleanup has yet to run. */
  ghost predicate Accounted(s: State, id: Id) {
    (exists k :: k in s.keyClients && s.keyClients[k] == id) || id in s.orphans || OnItsWay(s.pcs, id)
  }

  ghost predicate OnItsWay(pcs: map<Thread, Pc>, id: Id) {
    exists t :: t in pcs && InTransit(pcs[t]) == Some(id)
  }

  ghost predicate AllAccounted(s: State) {
    forall id :: id in s.tables.keys ==> Accounted(s, id)
  }

  lemma QuietAccounts(side: Side, s: State, e: Event, id: Id)
    requires Quiet(e) && Enabled(s, e) && Accounted(s, id)
    ensures Accounted(Apply(side, s, e), id)
  {
    QuietShape(side, s, e);
    var s' := Apply(side, s, e);
    if OnItsWay(s.pcs, id) {
      var t :| t in s.pcs && InTransit(s.pcs[t]) == Some(id);
      assert s'.pcs[t] == s.pcs[t];
    }
  }

  lemma RegisterAccounts(side: Side, s: State, e: Event, id: Id)
    requires e.Register? && Enabled(s, e) && id in Apply(side, s, e).tables.keys
    requires id in s.tables.keys ==> Accounted(s, id)
    ensures Accounted(Apply(side, s, e), id)
  {
    var s' := Apply(side, s, e);
    if id !in s.tables.keys {
      assert InTransit(s'.pcs[e.t]) == Some(id);
    } else if OnItsWay(s.pcs, id) {
      var t :| t in s.pcs && InTransit(s.pcs[t]) == Some(id);
      assert s'.pcs[t] == s.pcs[t];
    }
  }

  lemma ReceiveAccounts(side: Side, s: State, e: Event, id: Id)
    requires Valid(s) && e.Receive? && Enabled(s, e) && Accounted(s, id)
    ensures Accounted(Apply(side, s, e), id)
  {
    var s' := Apply(side, s, e);
    assert ThreadOk(s, s.pcs[e.t]);
    if OnItsWay(s.pcs, id) {
      var t :| t in s.pcs && InTransit(s.pcs[t]) == Some(id);
      if t == e.t {
        assert s'.keyClients[s.pcs[t].req.k] == id;
      } else {
        assert s'.pcs[t] == s.pcs[t];
      }
    } else if id !in s.orphans {
      var k :| k in s.keyClients && s.keyClients[k] == id;
      assert k in s'.keyClients && s'.keyClients[k] == id;
    }
  }

  lemma CleanupAccounts(side: Side, s: State, e: Event, id: Id)
    requires (e.DropKey? || e.CloseKey?) && Enabled(s, e) && Accounted(s, id) && id in Apply(side, s, e).tables.keys
    ensures Accounted(Apply(side, s, e), id)
  {
    var s' := Apply(side, s, e);
    if (exists k :: k in s.keyClients && s.keyClients[k] == id) {
      var k :| k in s.keyClients && s.keyClients[k] == id;
      assert (k in s'.keyClients && s'.keyClients[k] == id) || id in s'.orphans;
    }
  }

  lemma StepAccounts(side: Side, s: State, e: Event)
    requires Valid(s) && AllAccounted(s) && Enabled(s, e)
    ensures AllAccounted(Apply(side, s, e))
  {
    var s' := Apply(side, s, e);
    forall id | id in s'.tables.keys ensures Accounted(s', id) {
      if Quiet(e) {
        QuietShape(side, s, e);
        QuietAccounts(side, s, e, id);
      } else if e.Register? {
        RegisterAccounts(side, s, e, id);
      } else if e.Receive? {
        ReceiveAccounts(side, s, e, id);
      } else {
        CleanupAccounts(side, s, e, id);
      }
    }
  }

  lemma {:induction false} ExecAccounts(side: Side, s: State, es: seq<Event>)
    requires Valid(s) && AllAccounted(s) && Exec(side, s, es).Some?
    ensures AllAccounted(Exec(side, s, es).value)
    decreases |es|
  {
    if es == [] {
    } else {
      StepValid(side, s, es[0]);
      StepAccounts(side, s, es[0]);
      ExecAccounts(side, Apply(side, s, es[0]), es[1..]);
    }
  }

  /** No key is forgotten on the server: over every run, each registered key has a client that refers to it, is
      on its way to one, or will be removed by a cleanup that has yet to run; and once that has run it is
      gone. */
  lemma NoKeyForgotten(side: Side, es: seq<Event>, id: Id)
    requires Exec(side, Init(), es).Some? && id in Exec(side, Init(), es).value.tables.keys
    ensures var s := Exec(side, Init(), es).value;
            Accounted(s, id) && (id in s.orphans ==> id !in Apply(side, s, CloseKey(id)).tables.keys)
  {
    ExecAccounts(side, Init(), es);
  }

  /** A call of a key reaches the object its client refers to, which no other key client does. */
  lemma KeyReachesItsObject(side: Side, es: seq<Event>, k: KeyClient, use: KeyUse, t: Thread)
    requires Exec(side, Init(), es).Some? && Encodable(UseKey(k, use))
    requires Enabled(Exec(side, Init(), es).value, Call(t, UseKey(k, use)))
    ensures var s := Exec(side, Init(), es).value; var req := UseKey(k, use);
            s.keyClients[k] in s.issued && Enabled(Apply(side, s, Call(t, req)), Lookup(t)) &&
            PcOf(Apply(side, Apply(side, s, Call(t, req)), Lookup(t)), t) == Calling(s.issued[s.keyClients[k]], req) &&
            forall other :: other in s.keyClients && other != k ==>
              s.keyClients[other] in s.issued && s.issued[s.keyClients[other]] != s.issued[s.keyClients[k]]
  {
    ExecRefines(side, Init(), es);
  }
}
