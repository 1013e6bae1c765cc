/** Using an object through a plugin is using the object: PluginRegistry refines a system without
    ids, maps and statuses, in which clients refer to the objects themselves and get what the objects
    return. */
module PluginRefinement {
  import opened Common
  import opened PluginWire
  import opened PluginRegistry

  // ---- Direct use ---------------------------------------------------------------------------------

  datatype DirectPc =
    | Resting
    | Asking(target: Option<Ref>, req: Request)
    | Busy(ref: Ref, req: Request)
    | Made(ref: Ref, req: Request)
    | Replied(req: Request, o: Outcome, made: Option<Ref>)
    | Told(req: Request, o: Outcome)

  /** `open` are the services that were opened and not closed. Keys are never closed: they live as
      long as somebody refers to them. `log` are the calls of objects as the clients made them; a call
      with options of a type that is not supported is refused. */
  datatype Direct = Direct(
    open: set<Ref>,
    clients: map<Client, Ref>,
    keyClients: map<KeyClient, Ref>,
    objects: nat,
    log: seq<(Ref, Request)>,
    pcs: map<Thread, DirectPc>)

  const NOTHING := Direct({}, map[], map[], 0, [], map[])

  function DirectPcOf(d: Direct, t: Thread): DirectPc {
    if t in d.pcs then d.pcs[t] else Resting
  }

  function DirectTarget(d: Direct, req: Request): Option<Ref> {
    match req
    case UseKey(k, _) => if k in d.keyClients then Some(d.keyClients[k]) else None
    case _ => if req.c in d.clients then Some(d.clients[req.c]) else None
  }

  predicate DirectEnabled(d: Direct, e: Event) {
    match e
    case Call(t, req) => DirectPcOf(d, t).Resting? && (req.UseKey? ==> req.k in d.keyClients)
    case Lookup(t) => DirectPcOf(d, t).Asking? && (DirectPcOf(d, t).req.UseKey? ==> DirectPcOf(d, t).target.Some?)
    case Respond(t, _) => DirectPcOf(d, t).Busy?
    case Register(t, _) => DirectPcOf(d, t).Made?
    case Receive(t, _) => DirectPcOf(d, t).Replied?
    case Finish(t) => DirectPcOf(d, t).Told?
    case DropKey(k) => k in d.keyClients
    case CloseKey(_) => true
  }

  function DirectGoto(d: Direct, t: Thread, pc: DirectPc): Direct {
    d.(pcs := d.pcs[t := pc])
  }

  function DirectApply(d: Direct, e: Event): Direct
    requires DirectEnabled(d, e)
  {
    match e
    case Call(t, req) =>
      if req.Create? && req.c in d.clients then DirectGoto(d, t, Told(req, Failed(Plain("already opened"))))
      else if !Encodable(req) then DirectGoto(d, t, Told(req, Failed(Plain("unsupported options"))))
      else DirectGoto(d, t, Asking(DirectTarget(d, req), req))
    case Lookup(t) =>
      var Asking(ref, req) := DirectPcOf(d, t);
      if req.Create? then DirectGoto(d.(objects := d.objects + 1), t, Busy(d.objects, req))
      else if req.UseKey? then DirectGoto(d, t, Busy(ref.value, req))
      else if ref.None? || ref.value !in d.open then DirectGoto(d, t, Replied(req, Missing, None))
      else if req.Destroy? then DirectGoto(d.(open := d.open - {ref.value}), t, Busy(ref.value, req))
      else DirectGoto(d, t, Busy(ref.value, req))
    case Respond(t, e) =>
      var Busy(ref, req) := DirectPcOf(d, t);
      var d' := d.(log := d.log + [(ref, req)]);
      if e.Some? then DirectGoto(d', t, Replied(req, Failed(e.value), None))
      else if req.Create? then DirectGoto(d', t, Made(ref, req))
      else if req.MakeKey? then DirectGoto(d'.(objects := d.objects + 1), t, Made(d.objects, req))
      else DirectGoto(d', t, Replied(req, Done, None))
    case Register(t, uuid) =>
      var Made(ref, req) := DirectPcOf(d, t);
      if uuid.None? then DirectGoto(d, t, Replied(req, Failed(NO_UUID), None))
      else DirectGoto(if req.MakeKey? then d else d.(open := d.open + {ref}), t, Replied(req, Done, Some(ref)))
    case Receive(t, _) =>
      var Replied(req, o, ref) := DirectPcOf(d, t);
      var d' := if ref.Some? && req.Create? then d.(clients := d.clients[req.c := ref.value])
                else if ref.Some? && req.MakeKey? then d.(keyClients := d.keyClients[req.k := ref.value])
                else d;
      DirectGoto(d', t, Told(req, o))
    case Finish(t) => DirectGoto(d, t, Resting)
    case DropKey(k) => d.(keyClients := d.keyClients - {k})
    case CloseKey(_) => d
  }

  function DirectExec(d: Direct, es: seq<Event>): Option<Direct>
    decreases |es|
  {
    if es == [] then Some(d)
    else if DirectEnabled(d, es[0]) then DirectExec(DirectApply(d, es[0]), es[1..])
    else None
  }

  // ---- The invariant of the registry ------------------------------------------------------------------

  /** The object thread pc is about to register. */
  function Unregistered(pc: Pc): Option<Ref> {
    if (pc.Calling? && pc.req.Create?) || pc.Registering? then Some(pc.ref) else None
  }

  /** The id of a key on its way to its client. */
  function InTransit(pc: Pc): Option<Id> {
    if pc.Answered? && pc.req.MakeKey? then pc.id else None
  }

  /** The key client that is being made. */
  function Making(pc: Pc): Option<KeyClient> {
    if (pc.Sent? || pc.Calling? || pc.Registering? || pc.Answered?) && pc.req.MakeKey? then Some(pc.req.k) else None
  }

  ghost predicate IssuedOk(issued: map<Id, Ref>, objects: nat) {
    && (forall id :: id in issued ==> issued[id] < objects)
    && (forall id, other :: id in issued && other in issued && issued[id] == issued[other] ==> id == other)
  }

  ghost predicate TablesOk(tables: Tables, issued: map<Id, Ref>) {
    && (forall id :: id in tables.services ==> id in issued && tables.services[id] == issued[id])
    && (forall id :: id in tables.keys ==> id in issued && tables.keys[id] == issued[id])
  }

  ghost predicate ClientsOk(s: State) {
    && (forall c :: c in s.clients ==> s.clients[c] in s.issued)
    && (forall k :: k in s.keyClients ==> s.keyClients[k] in s.tables.keys && s.keyClients[k] !in s.orphans)
    && (forall k, other :: k in s.keyClients && other in s.keyClients && s.keyClients[k] == s.keyClients[other] ==> k == other)
    && (forall id :: id in s.orphans ==> id in s.issued)
  }

  ghost predicate NotIssued(issued: map<Id, Ref>, ref: Ref) {
    forall id :: id in issued ==> issued[id] != ref
  }

  ghost predicate NotHeld(keyClients: map<KeyClient, Id>, id: Id) {
    forall k :: k in keyClients ==> keyClients[k] != id
  }

  ghost predicate ThreadOk(s: State, pc: Pc) {
    && (Unregistered(pc).Some? ==> pc.ref < s.objects && NotIssued(s.issued, pc.ref))
    && (InTransit(pc).Some? ==> pc.id.value in s.tables.keys && pc.id.value !in s.orphans && NotHeld(s.keyClients, pc.id.value))
    && (Making(pc).Some? ==> pc.req.k !in s.keyClients)
    && (pc.Sent? && pc.id.Some? ==> pc.id.value in s.issued)
    && (pc.Sent? && pc.req.UseKey? ==> pc.req.k in s.keyClients && pc.id == Some(s.keyClients[pc.req.k]))
    && (pc.Answered? && pc.id.Some? ==> pc.id.value in s.issued)
  }

  ghost predicate Apart(pc: Pc, other: Pc) {
    && (Unregistered(pc).Some? ==> Unregistered(pc) != Unregistered(other))
    && (InTransit(pc).Some? ==> InTransit(pc) != InTransit(other))
    && (Making(pc).Some? ==> Making(pc) != Making(other))
  }

  ghost predicate ThreadsOk(s: State) {
    && (forall t :: t in s.pcs ==> ThreadOk(s, s.pcs[t]))
    && (forall t, u :: t in s.pcs && u in s.pcs && t != u ==> Apart(s.pcs[t], s.pcs[u]))
  }

  ghost predicate Valid(s: State) {
    IssuedOk(s.issued, s.objects) && TablesOk(s.tables, s.issued) && ClientsOk(s) && ThreadsOk(s)
  }

  // Which parts of the state the events change.

  predicate Quiet(e: Event) {
    e.Call? || e.Lookup? || e.Respond? || e.Finish?
  }

  ghost predicate QuietChange(s: State, s': State, t: Thread) {
    && s' == s.(pcs := s.pcs[t := PcOf(s', t)], tables := s'.tables, objects := s'.objects, log := s'.log,
                asked := s'.asked)
    && s'.objects >= s.objects && s'.tables.keys == s.tables.keys
    && (forall id :: id in s'.tables.services ==> id in s.tables.services && s'.tables.services[id] == s.tables.services[id])
  }

  lemma QuietShape(side: Side, s: State, e: Event)
    requires Enabled(s, e) && Quiet(e)
    ensures QuietChange(s, Apply(side, s, e), e.t)
  {
    if e.Lookup? {
      LookupShape(side, s, e);
    }
  }

  lemma LookupShape(side: Side, s: State, e: Event)
    requires Enabled(s, e) && e.Lookup?
    ensures QuietChange(s, Apply(side, s, e), e.t)
  {
  }

  lemma QuietBase(s: State, s': State, t: Thread)
    requires IssuedOk(s.issued, s.objects) && TablesOk(s.tables, s.issued) && ClientsOk(s) && QuietChange(s, s', t)
    ensures IssuedOk(s'.issued, s'.objects) && TablesOk(s'.tables, s'.issued) && ClientsOk(s')
  {
  }

  lemma RegisterBase(side: Side, s: State, e: Event)
    requires Valid(s) && Enabled(s, e) && e.Register?
    ensures var s' := Apply(side, s, e); IssuedOk(s'.issued, s'.objects) && TablesOk(s'.tables, s'.issued) && ClientsOk(s')
  {
    assert ThreadOk(s, s.pcs[e.t]);
  }

  lemma DeliverBase(s: State, req: Request, id: Option<Id>)
    requires ClientsOk(s) && (id.Some? ==> id.value in s.issued)
    requires req.MakeKey? && id.Some? ==>
      id.value in s.tables.keys && id.value !in s.orphans && NotHeld(s.keyClients, id.value)
    ensures var s' := Deliver(s, req, id);
            ClientsOk(s') && s' == s.(clients := s'.clients, keyClients := s'.keyClients)
  {
  }

  lemma ReceiveBase(side: Side, s: State, e: Event)
    requires Valid(s) && Enabled(s, e) && e.Receive?
    ensures var s' := Apply(side, s, e); IssuedOk(s'.issued, s'.objects) && TablesOk(s'.tables, s'.issued) && ClientsOk(s')
  {
    assert ThreadOk(s, s.pcs[e.t]);
    DeliverBase(s, s.pcs[e.t].req, s.pcs[e.t].id);
  }

  lemma KeysBase(side: Side, s: State, e: Event)
    requires Valid(s) && Enabled(s, e) && (e.DropKey? || e.CloseKey?)
    ensures var s' := Apply(side, s, e); IssuedOk(s'.issued, s'.objects) && TablesOk(s'.tables, s'.issued) && ClientsOk(s')
  {
  }

  lemma StepBase(side: Side, s: State, e: Event)
    requires Valid(s) && Enabled(s, e)
    ensures var s' := Apply(side, s, e); IssuedOk(s'.issued, s'.objects) && TablesOk(s'.tables, s'.issued) && ClientsOk(s')
  {
    if Quiet(e) {
      QuietShape(side, s, e);
      QuietBase(s, Apply(side, s, e), e.t);
    } else if e.Register? {
      RegisterBase(side, s, e);
    } else if e.Receive? {
      ReceiveBase(side, s, e);
    } else {
      KeysBase(side, s, e);
    }
  }

  // The other threads.

  lemma OthersQuiet(s: State, s': State, t: Thread, pc: Pc)
    requires QuietChange(s, s', t) && ThreadOk(s, pc)
    ensures ThreadOk(s', pc)
  {
  }

  lemma OthersRegister(side: Side, s: State, e: Event, pc: Pc)
    requires Valid(s) && Enabled(s, e) && e.Register? && ThreadOk(s, pc) && Apart(s.pcs[e.t], pc)
    ensures ThreadOk(Apply(side, s, e), pc)
  {
  }

  lemma OthersReceive(side: Side, s: State, e: Event, pc: Pc)
    requires Valid(s) && Enabled(s, e) && e.Receive? && ThreadOk(s, pc) && Apart(s.pcs[e.t], pc)
    requires ThreadOk(s, s.pcs[e.t])
    ensures ThreadOk(Apply(side, s, e), pc)
  {
  }

  lemma OthersKeys(side: Side, s: State, e: Event, t: Thread)
    requires Valid(s) && Enabled(s, e) && (e.DropKey? || e.CloseKey?) && t in s.pcs
    ensures ThreadOk(Apply(side, s, e), s.pcs[t])
  {
    assert ThreadOk(s, s.pcs[t]);
    assert e.DropKey? ==> !Mentions(s.pcs[t], e.k);
  }

  lemma StepOther(side: Side, s: State, e: Event, t: Thread)
    requires Valid(s) && Enabled(s, e) && t in s.pcs && (e.DropKey? || e.CloseKey? || t != e.t)
    ensures var s' := Apply(side, s, e); t in s'.pcs && s'.pcs[t] == s.pcs[t] && ThreadOk(s', s.pcs[t])
  {
    assert ThreadOk(s, s.pcs[t]);
    if Quiet(e) {
      QuietShape(side, s, e);
      OthersQuiet(s, Apply(side, s, e), e.t, s.pcs[t]);
    } else if e.Register? {
      OthersRegister(side, s, e, s.pcs[t]);
    } else if e.Receive? {
      assert ThreadOk(s, s.pcs[e.t]);
      OthersReceive(side, s, e, s.pcs[t]);
    } else {
      OthersKeys(side, s, e, t);
    }
  }

  // The thread itself.

  lemma OwnCall(side: Side, s: State, e: Event)
    requires ClientsOk(s) && TablesOk(s.tables, s.issued) && Enabled(s, e) && e.Call?
    ensures ThreadOk(Apply(side, s, e), PcOf(Apply(side, s, e), e.t))
  {
  }

  lemma OwnLookup(side: Side, s: State, e: Event)
    requires e.Lookup? && IssuedOk(s.issued, s.objects) && ThreadOk(s, PcOf(s, e.t)) && Enabled(s, e)
    ensures ThreadOk(Apply(side, s, e), PcOf(Apply(side, s, e), e.t))
  {
  }

  lemma OwnServed(side: Side, s: State, e: Event)
    requires e.Respond? || e.Finish?
    requires IssuedOk(s.issued, s.objects) && ThreadOk(s, PcOf(s, e.t)) && Enabled(s, e)
    ensures ThreadOk(Apply(side, s, e), PcOf(Apply(side, s, e), e.t))
  {
  }

  lemma OwnLoud(side: Side, s: State, e: Event)
    requires Valid(s) && Enabled(s, e) && (e.Register? || e.Receive?)
    ensures ThreadOk(Apply(side, s, e), PcOf(Apply(side, s, e), e.t))
  {
    assert ThreadOk(s, s.pcs[e.t]);
  }

  lemma OwnThread(side: Side, s: State, e: Event)
    requires Valid(s) && Enabled(s, e) && (Quiet(e) || e.Register? || e.Receive?)
    ensures ThreadOk(Apply(side, s, e), PcOf(Apply(side, s, e), e.t))
  {
    if e.Call? {
      OwnCall(side, s, e);
    } else if Quiet(e) {
      assert ThreadOk(s, s.pcs[e.t]);
      if e.Lookup? {
        OwnLookup(side, s, e);
      } else {
        OwnServed(side, s, e);
      }
    } else {
      OwnLoud(side, s, e);
    }
  }

  lemma PcsShape(side: Side, s: State, e: Event)
    requires Enabled(s, e) && (Quiet(e) || e.Register? || e.Receive?)
    ensures Apply(side, s, e).pcs == s.pcs[e.t := PcOf(Apply(side, s, e), e.t)]
  {
    if Quiet(e) {
      QuietShape(side, s, e);
    } else {
      LoudShape(side, s, e);
    }
  }

  lemma LoudShape(side: Side, s: State, e: Event)
    requires Enabled(s, e) && (e.Register? || e.Receive?)
    ensures Apply(side, s, e).pcs == s.pcs[e.t := PcOf(Apply(side, s, e), e.t)]
  {
  }

  /** The thread comes to claim only what is new or what it claimed before. */
  lemma OwnApartCall(side: Side, s: State, e: Event, pc: Pc)
    requires Enabled(s, e) && (e.Call? || e.Finish?)
    requires ThreadOk(s, pc)
    requires e.Call? && e.req.MakeKey? ==> !Mentions(pc, e.req.k)
    ensures Apart(PcOf(Apply(side, s, e), e.t), pc) && Apart(pc, PcOf(Apply(side, s, e), e.t))
  {
  }

  lemma OwnApartServed(side: Side, s: State, e: Event, pc: Pc)
    requires Enabled(s, e) && (e.Lookup? || e.Respond?)
    requires ThreadOk(s, pc) && Apart(PcOf(s, e.t), pc) && Apart(pc, PcOf(s, e.t))
    ensures Apart(PcOf(Apply(side, s, e), e.t), pc) && Apart(pc, PcOf(Apply(side, s, e), e.t))
  {
  }

  lemma OwnApartLoud(side: Side, s: State, e: Event, pc: Pc)
    requires TablesOk(s.tables, s.issued) && Enabled(s, e) && (e.Register? || e.Receive?)
    requires ThreadOk(s, pc) && Apart(PcOf(s, e.t), pc) && Apart(pc, PcOf(s, e.t))
    ensures Apart(PcOf(Apply(side, s, e), e.t), pc) && Apart(pc, PcOf(Apply(side, s, e), e.t))
  {
  }

  lemma StepApart(side: Side, s: State, e: Event, t: Thread)
    requires Valid(s) && Enabled(s, e) && (Quiet(e) || e.Register? || e.Receive?) && t in s.pcs && t != e.t
    ensures Apart(PcOf(Apply(side, s, e), e.t), s.pcs[t]) && Apart(s.pcs[t], PcOf(Apply(side, s, e), e.t))
  {
    assert ThreadOk(s, s.pcs[t]);
    assert e.t in s.pcs ==> Apart(s.pcs[e.t], s.pcs[t]) && Apart(s.pcs[t], s.pcs[e.t]);
    assert e.Call? && e.req.MakeKey? ==> !Mentions(s.pcs[t], e.req.k);
    if e.Call? || e.Finish? {
      OwnApartCall(side, s, e, s.pcs[t]);
    } else if Quiet(e) {
      OwnApartServed(side, s, e, s.pcs[t]);
    } else {
      OwnApartLoud(side, s, e, s.pcs[t]);
    }
  }

  lemma StepThreads(side: Side, s: State, e: Event)
    requires Valid(s) && Enabled(s, e) && (Quiet(e) || e.Register? || e.Receive?)
    ensures ThreadsOk(Apply(side, s, e))
  {
    var s' := Apply(side, s, e);
    OwnThread(side, s, e);
    PcsShape(side, s, e);
    forall t | t in s'.pcs ensures ThreadOk(s', s'.pcs[t]) {
      if t != e.t {
        StepOther(side, s, e, t);
      }
    }
    forall t, u | t in s'.pcs && u in s'.pcs && t != u ensures Apart(s'.pcs[t], s'.pcs[u]) {
      if t == e.t {
        StepApart(side, s, e, u);
      } else if u == e.t {
        StepApart(side, s, e, t);
      }
    }
  }

  lemma StepValid(side: Side, s: State, e: Event)
    requires Valid(s) && Enabled(s, e)
    ensures Valid(Apply(side, s, e))
  {
    StepBase(side, s, e);
    if e.DropKey? || e.CloseKey? {
      forall t | t in s.pcs ensures ThreadOk(Apply(side, s, e), s.pcs[t]) {
        StepOther(side, s, e, t);
      }
    } else {
      StepThreads(side, s, e);
    }
  }

  // ---- The refinement ------------------------------------------------------------------------------------

  function RefOf(issued: map<Id, Ref>, id: Id): Ref {
    if id in issued then issued[id] else 0
  }

  function RefOfSome(issued: map<Id, Ref>, id: Option<Id>): Option<Ref> {
    if id.Some? then Some(RefOf(issued, id.value)) else None
  }

  function ViewPc(issued: map<Id, Ref>, pc: Pc): DirectPc {
    match pc
    case Idle => Resting
    case Sent(id, req) => Asking(RefOfSome(issued, id), req)
    case Calling(ref, req) => Busy(ref, req)
    case Registering(ref, req) => Made(ref, req)
    case Answered(req, o, id) => Replied(req, o, RefOfSome(issued, id))
    case Returned(req, _, o) => Told(req, o)
  }

  function OpenServices(tables: Tables): set<Ref> {
    set id | id in tables.services :: tables.services[id]
  }

  function ViewPcs(issued: map<Id, Ref>, pcs: map<Thread, Pc>): map<Thread, DirectPc> {
    map t | t in pcs :: ViewPc(issued, pcs[t])
  }

  function ViewHolders(issued: map<Id, Ref>, holders: map<nat, Id>): map<nat, Ref> {
    map c | c in holders :: RefOf(issued, holders[c])
  }

  /** The system with every id replaced by the object it names. */
  function View(s: State): Direct {
    Direct(OpenServices(s.tables), ViewHolders(s.issued, s.clients), ViewHolders(s.issued, s.keyClients),
           s.objects, s.asked, ViewPcs(s.issued, s.pcs))
  }

  lemma ViewMoves(issued: map<Id, Ref>, pcs: map<Thread, Pc>, t: Thread, pc: Pc)
    ensures ViewPcs(issued, pcs[t := pc]) == ViewPcs(issued, pcs)[t := ViewPc(issued, pc)]
  {
  }

  lemma ViewHolds(issued: map<Id, Ref>, holders: map<nat, Id>, c: nat, id: Id)
    ensures ViewHolders(issued, holders[c := id]) == ViewHolders(issued, holders)[c := RefOf(issued, id)]
    ensures ViewHolders(issued, holders - {c}) == ViewHolders(issued, holders) - {c}
  {
  }

  /** A service is found by its id exactly if the object it names is open, and removing the id closes
      that object and no other. */
  lemma FindsOpen(s: State, id: Id)
    requires IssuedOk(s.issued, s.objects) && TablesOk(s.tables, s.issued) && id in s.issued
    ensures id in s.tables.services <==> RefOf(s.issued, id) in OpenServices(s.tables)
    ensures OpenServices(s.tables.(services := s.tables.services - {id})) == OpenServices(s.tables) - {RefOf(s.issued, id)}
  {
    var services := s.tables.services - {id};
    forall ref | ref in OpenServices(s.tables) && ref != RefOf(s.issued, id)
      ensures ref in OpenServices(s.tables.(services := services))
    {
      var i :| i in s.tables.services && s.tables.services[i] == ref;
      assert i in services && services[i] == ref;
    }
  }

  lemma RefinesLookup(side: Side, s: State, e: Event)
    requires IssuedOk(s.issued, s.objects) && TablesOk(s.tables, s.issued) && Enabled(s, e) && e.Lookup?
    requires ThreadOk(s, PcOf(s, e.t)) && !PcOf(s, e.t).req.UseKey? && !PcOf(s, e.t).req.Create?
    ensures DirectEnabled(View(s), e) && DirectApply(View(s), e) == View(Apply(side, s, e))
  {
    var Sent(id, req) := s.pcs[e.t];
    ViewMoves(s.issued, s.pcs, e.t, PcOf(Apply(side, s, e), e.t));
    if id.Some? {
      FindsOpen(s, id.value);
    }
  }

  lemma RefinesCreate(side: Side, s: State, e: Event)
    requires Enabled(s, e) && e.Lookup? && PcOf(s, e.t).req.Create?
    ensures DirectEnabled(View(s), e) && DirectApply(View(s), e) == View(Apply(side, s, e))
  {
    ViewMoves(s.issued, s.pcs, e.t, PcOf(Apply(side, s, e), e.t));
  }

  lemma RefinesLookupKey(side: Side, s: State, e: Event)
    requires ClientsOk(s) && TablesOk(s.tables, s.issued) && Enabled(s, e) && e.Lookup?
    requires ThreadOk(s, PcOf(s, e.t)) && PcOf(s, e.t).req.UseKey?
    ensures DirectEnabled(View(s), e) && DirectApply(View(s), e) == View(Apply(side, s, e))
  {
    ViewMoves(s.issued, s.pcs, e.t, PcOf(Apply(side, s, e), e.t));
  }

  lemma ViewGoto(s: State, t: Thread, pc: Pc)
    ensures View(Goto(s, t, pc)) == DirectGoto(View(s), t, ViewPc(s.issued, pc))
  {
    ViewMoves(s.issued, s.pcs, t, pc);
  }

  /** The id a client sends is the one of the object it refers to. */
  lemma TargetsAgree(s: State, req: Request)
    ensures RefOfSome(s.issued, Target(s, req)) == DirectTarget(View(s), req)
  {
  }

  lemma RefinesRefusal(side: Side, s: State, e: Event)
    requires Enabled(s, e) && e.Call? && ((e.req.Create? && e.req.c in s.clients) || !Encodable(e.req))
    ensures DirectEnabled(View(s), e) && DirectApply(View(s), e) == View(Apply(side, s, e))
  {
    ViewGoto(s, e.t, PcOf(Apply(side, s, e), e.t));
  }

  lemma RefinesSending(side: Side, s: State, e: Event)
    requires Enabled(s, e) && e.Call? && !(e.req.Create? && e.req.c in s.clients) && Encodable(e.req)
    ensures DirectEnabled(View(s), e) && DirectApply(View(s), e) == View(Apply(side, s, e))
  {
    TargetsAgree(s, e.req);
    ViewGoto(s, e.t, Sent(Target(s, e.req), e.req));
  }

  lemma RefinesCall(side: Side, s: State, e: Event)
    requires Enabled(s, e) && e.Call?
    ensures DirectEnabled(View(s), e) && DirectApply(View(s), e) == View(Apply(side, s, e))
  {
    if (e.req.Create? && e.req.c in s.clients) || !Encodable(e.req) {
      RefinesRefusal(side, s, e);
    } else {
      RefinesSending(side, s, e);
    }
  }

  lemma RefinesRespond(side: Side, s: State, e: Event)
    requires Enabled(s, e) && e.Respond?
    ensures DirectEnabled(View(s), e) && DirectApply(View(s), e) == View(Apply(side, s, e))
  {
    if e.e.Some? {
      RefinesFailure(side, s, e);
    } else {
      RefinesSuccess(side, s, e);
    }
  }

  lemma RefinesFailure(side: Side, s: State, e: Event)
    requires Enabled(s, e) && e.Respond? && e.e.Some?
    ensures DirectEnabled(View(s), e) && DirectApply(View(s), e) == View(Apply(side, s, e))
  {
    ViewMoves(s.issued, s.pcs, e.t, PcOf(Apply(side, s, e), e.t));
  }

  lemma RefinesSuccess(side: Side, s: State, e: Event)
    requires Enabled(s, e) && e.Respond? && e.e.None?
    ensures DirectEnabled(View(s), e) && DirectApply(View(s), e) == View(Apply(side, s, e))
  {
    var Calling(ref, req) := s.pcs[e.t];
    var pc := if req.Create? then Registering(ref, req) else if req.MakeKey? then Registering(s.objects, req)
              else Answered(req, Done, None);
    assert Apply(side, s, e) == s.(log := s.log + [(ref, Arriving(req))], asked := s.asked + [(ref, req)], pcs := s.pcs[e.t := pc],
                                   objects := if req.MakeKey? then s.objects + 1 else s.objects);
    ViewMoves(s.issued, s.pcs, e.t, pc);
  }

  lemma RefinesFinish(side: Side, s: State, e: Event)
    requires Enabled(s, e) && e.Finish?
    ensures DirectEnabled(View(s), e) && DirectApply(View(s), e) == View(Apply(side, s, e))
  {
    ViewMoves(s.issued, s.pcs, e.t, PcOf(Apply(side, s, e), e.t));
  }

  /** A new id changes the view of nothing. */
  lemma ViewStable(s: State, id: Id, ref: Ref, pcs: map<Thread, Pc>)
    requires ClientsOk(s) && TablesOk(s.tables, s.issued) && id !in s.issued
    requires forall t :: t in pcs ==> ThreadOk(s, pcs[t])
    ensures ViewHolders(s.issued[id := ref], s.clients) == ViewHolders(s.issued, s.clients)
    ensures ViewHolders(s.issued[id := ref], s.keyClients) == ViewHolders(s.issued, s.keyClients)
    ensures ViewPcs(s.issued[id := ref], pcs) == ViewPcs(s.issued, pcs)
  {
    forall t | t in pcs ensures ViewPc(s.issued[id := ref], pcs[t]) == ViewPc(s.issued, pcs[t]) {
      assert ThreadOk(s, pcs[t]);
    }
  }

  lemma OpensRegistered(tables: Tables, id: Id, ref: Ref, req: Request)
    requires id !in tables.services && !req.MakeKey?
    ensures OpenServices(Insert(tables, id, ref, req)) == OpenServices(tables) + {ref}
  {
    var services := tables.services[id := ref];
    assert forall i :: i in tables.services ==> services[i] == tables.services[i];
    assert services[id] == ref;
  }

  lemma RefinesNoUuid(side: Side, s: State, e: Event)
    requires Enabled(s, e) && e.Register? && e.uuid.None?
    ensures DirectEnabled(View(s), e) && DirectApply(View(s), e) == View(Apply(side, s, e))
  {
    ViewMoves(s.issued, s.pcs, e.t, PcOf(Apply(side, s, e), e.t));
  }

  lemma RefinesRegister(side: Side, s: State, e: Event)
    requires Valid(s) && Enabled(s, e) && e.Register?
    ensures DirectEnabled(View(s), e) && DirectApply(View(s), e) == View(Apply(side, s, e))
  {
    var Registering(ref, req) := s.pcs[e.t];
    var pc' := PcOf(Apply(side, s, e), e.t);
    if e.uuid.None? {
      RefinesNoUuid(side, s, e);
    } else {
      ViewStable(s, e.uuid.value, ref, s.pcs);
      ViewMoves(s.issued[e.uuid.value := ref], s.pcs, e.t, pc');
      if !req.MakeKey? {
        OpensRegistered(s.tables, e.uuid.value, ref, req);
      }
    }
  }

  lemma RefinesReceive(side: Side, s: State, e: Event)
    requires Enabled(s, e) && e.Receive?
    ensures DirectEnabled(View(s), e) && DirectApply(View(s), e) == View(Apply(side, s, e))
  {
    var Answered(req, o, id) := s.pcs[e.t];
    ViewGoto(Deliver(s, req, id), e.t, Returned(req, Shown(side, RpcOf(req), o, e.shutdown), o));
    if id.Some? && req.Create? {
      ViewHolds(s.issued, s.clients, req.c, id.value);
    } else if id.Some? && req.MakeKey? {
      ViewHolds(s.issued, s.keyClients, req.k, id.value);
    }
  }

  lemma RefinesKeys(side: Side, s: State, e: Event)
    requires Valid(s) && Enabled(s, e) && (e.DropKey? || e.CloseKey?)
    ensures DirectEnabled(View(s), e) && DirectApply(View(s), e) == View(Apply(side, s, e))
  {
    if e.DropKey? {
      ViewHolds(s.issued, s.keyClients, e.k, 0);
    }
  }

  lemma StepRefines(side: Side, s: State, e: Event)
    requires Valid(s) && Enabled(s, e)
    ensures DirectEnabled(View(s), e) && DirectApply(View(s), e) == View(Apply(side, s, e))
  {
    match e
    case Lookup(t) =>
      assert ThreadOk(s, s.pcs[t]);
      if s.pcs[t].req.UseKey? {
        RefinesLookupKey(side, s, e);
      } else if s.pcs[t].req.Create? {
        RefinesCreate(side, s, e);
      } else {
        RefinesLookup(side, s, e);
      }
    case Register(_, _) => RefinesRegister(side, s, e);
    case Receive(_, _) => RefinesReceive(side, s, e);
    case DropKey(_) => RefinesKeys(side, s, e);
    case CloseKey(_) => RefinesKeys(side, s, e);
    case Call(_, _) => RefinesCall(side, s, e);
    case Respond(_, _) => RefinesRespond(side, s, e);
    case Finish(_) => RefinesFinish(side, s, e);
  }

  lemma {:induction false} ExecRefines(side: Side, s: State, es: seq<Event>)
    requires Valid(s) && Exec(side, s, es).Some?
    ensures Valid(Exec(side, s, es).value)
    ensures DirectExec(View(s), es) == Some(View(Exec(side, s, es).value))
    decreases |es|
  {
    if es == [] {
    } else {
      StepValid(side, s, es[0]);
      StepRefines(side, s, es[0]);
      ExecRefines(side, Apply(side, s, es[0]), es[1..]);
    }
  }

  /** Every run of clients and servers is a run of direct use, event by event, in which each object
      receives the same calls in the same order and each call returns the same outcome. */
  lemma RegistryRefinesDirectUse(side: Side, es: seq<Event>)
    requires Exec(side, Init(), es).Some?
    ensures var s := Exec(side, Init(), es).value; var d := DirectExec(NOTHING, es);
            d.Some? && d.value.log == s.asked && Delivers(s.log, s.asked) &&
            forall t :: PcOf(s, t).Returned? ==> DirectPcOf(d.value, t) == Told(PcOf(s, t).req, PcOf(s, t).o)
  {
    assert View(Init()) == NOTHING;
    ExecRefines(side, Init(), es);
    ExecDelivers(side, Init(), es);
  }

  // ---- What objects receive ------------------------------------------------------------------------------

  /** Each object receives the calls that were made of it, in order, with their options decoded. */
  ghost predicate Delivers(log: seq<(Ref, Request)>, asked: seq<(Ref, Request)>) {
    |log| == |asked| && forall i :: 0 <= i < |log| ==> log[i] == (asked[i].0, Arriving(asked[i].1))
  }

  /** Nothing but the return of a call is recorded. */
  lemma RecordsResponses(side: Side, s: State, e: Event)
    requires Enabled(s, e)
    ensures var s' := Apply(side, s, e);
            if e.Respond? then
              var Calling(ref, req) := s.pcs[e.t];
              s'.log == s.log + [(ref, Arriving(req))] && s'.asked == s.asked + [(ref, req)]
            else s'.log == s.log && s'.asked == s.asked
  {
    if Quiet(e) && !e.Respond? {
      QuietRecords(side, s, e);
    }
  }

  lemma QuietRecords(side: Side, s: State, e: Event)
    requires Enabled(s, e) && Quiet(e) && !e.Respond?
    ensures Apply(side, s, e).log == s.log && Apply(side, s, e).asked == s.asked
  {
  }

  lemma StepDelivers(side: Side, s: State, e: Event)
    requires Delivers(s.log, s.asked) && Enabled(s, e)
    ensures Delivers(Apply(side, s, e).log, Apply(side, s, e).asked)
  {
    RecordsResponses(side, s, e);
  }

  lemma {:induction false} ExecDelivers(side: Side, s: State, es: seq<Event>)
    requires Delivers(s.log, s.asked) && Exec(side, s, es).Some?
    ensures Delivers(Exec(side, s, es).value.log, Exec(side, s, es).value.asked)
    decreases |es|
  {
    if es == [] {
    } else {
      StepDelivers(side, s, es[0]);
      ExecDelivers(side, Apply(side, s, es[0]), es[1..]);
    }
  }

  /** The options of the request are of a supported type, not nil, and their numbers fit the wire. */
  predicate Fits(req: Request) {
    req.UseKey? && req.use.Signing? ==>
      req.use.opts.Some? &&
      var o := req.use.opts.value;
      !o.OtherOpts? && HashFits(o.hash) && (o.PSS? ==> INT32_MIN <= o.salt <= INT32_MAX)
  }

  /** A request that could be sent arrives as it was made exactly if it fits. */
  lemma ArrivesExactly(req: Request)
    requires Encodable(req)
    ensures Arriving(req) == req <==> Fits(req)
  {
    if req.UseKey? && req.use.Signing? && req.use.opts.Some? {
      OptsRoundTrip(req.use.opts.value);
    }
  }

  /** No request without a form on the wire gets past its client. */
  ghost predicate AllEncodable(s: State) {
    && (forall i :: 0 <= i < |s.asked| ==> Encodable(s.asked[i].1))
    && (forall t :: PcEncodable(PcOf(s, t)))
  }

  predicate PcEncodable(pc: Pc) {
    pc.Sent? || pc.Calling? ==> Encodable(pc.req)
  }

  lemma PcStaysEncodable(side: Side, s: State, e: Event, t: Thread)
    requires PcEncodable(PcOf(s, t)) && Enabled(s, e)
    ensures PcEncodable(PcOf(Apply(side, s, e), t))
  {
  }

  lemma StepEncodable(side: Side, s: State, e: Event)
    requires AllEncodable(s) && Enabled(s, e)
    ensures AllEncodable(Apply(side, s, e))
  {
    RecordsResponses(side, s, e);
    assert e.Respond? ==> PcEncodable(PcOf(s, e.t));
    forall t ensures PcEncodable(PcOf(Apply(side, s, e), t)) {
      PcStaysEncodable(side, s, e, t);
    }
  }

  lemma {:induction false} ExecEncodable(side: Side, s: State, es: seq<Event>)
    requires AllEncodable(s) && Exec(side, s, es).Some?
    ensures AllEncodable(Exec(side, s, es).value)
    decreases |es|
  {
    if es == [] {
    } else {
      StepEncodable(side, s, es[0]);
      ExecEncodable(side, Apply(side, s, es[0]), es[1..]);
    }
  }

  /** Over every run, the objects receive exactly the calls that direct use makes of them if and only if the
      options of every call are not nil and fit the wire. */
  lemma ObjectsReceiveExactly(side: Side, es: seq<Event>)
    requires Exec(side, Init(), es).Some?
    ensures var s := Exec(side, Init(), es).value; var d := DirectExec(NOTHING, es);
            d.Some? && (s.log == d.value.log <==> forall i :: 0 <= i < |d.value.log| ==> Fits(d.value.log[i].1))
  {
    RegistryRefinesDirectUse(side, es);
    ExecEncodable(side, Init(), es);
    var s := Exec(side, Init(), es).value;
    forall i | 0 <= i < |s.asked| ensures s.log[i] == s.asked[i] <==> Fits(s.asked[i].1) {
      ArrivesExactly(s.asked[i].1);
    }
  }

  // ---- What callers are told -----------------------------------------------------------------------------

  /** The caller is told what the wire makes of the outcome. */
  ghost predicate Relayed(side: Side, pc: Pc) {
    pc.Returned? ==> exists shutdown :: pc.seen == Shown(side, RpcOf(pc.req), pc.o, shutdown)
  }

  lemma StepRelays(side: Side, s: State, e: Event)
    requires (forall t :: Relayed(side, PcOf(s, t))) && Enabled(s, e)
    ensures forall t :: Relayed(side, PcOf(Apply(side, s, e), t))
  {
    forall t ensures Relayed(side, PcOf(Apply(side, s, e), t)) {
      assert Relayed(side, PcOf(s, t));
      Tells(side, s, e, t);
    }
  }

  lemma Tells(side: Side, s: State, e: Event, t: Thread)
    requires Enabled(s, e)
    ensures var pc := PcOf(Apply(side, s, e), t);
            pc.Returned? ==>
              pc == PcOf(s, t) || pc.seen == Shown(side, RpcOf(pc.req), pc.o, if e.Receive? then e.shutdown else false)
  {
    if !e.Call? && !e.Receive? {
      OthersTellNothing(side, s, e, t);
    }
  }

  lemma OthersTellNothing(side: Side, s: State, e: Event, t: Thread)
    requires Enabled(s, e) && !e.Call? && !e.Receive?
    ensures var pc := PcOf(Apply(side, s, e), t); pc.Returned? ==> pc == PcOf(s, t)
  {
  }

  lemma {:induction false} ExecRelays(side: Side, s: State, es: seq<Event>)
    requires (forall t :: Relayed(side, PcOf(s, t))) && Exec(side, s, es).Some?
    ensures forall t :: Relayed(side, PcOf(Exec(side, s, es).value, t))
    decreases |es|
  {
    if es == [] {
    } else {
      StepRelays(side, s, es[0]);
      ExecRelays(side, Apply(side, s, es[0]), es[1..]);
    }
  }

  /** A call of Verify. */
  predicate Verifies(req: Request) {
    req.UseKey? && req.use.Signing? && req.use.verify
  }

  /** A call of Close, Finalize or Init. */
  predicate Closes(req: Request) {
    req.Destroy? || (req.Use? && req.init)
  }

  /** What a caller of a KMS learns of the outcome, which is what direct use returned in the same run:
      success, the sentinels and the text of ordinary errors, each exactly; an invalid signature of
      Verify only. Close and Init of a plugin that shuts down hide a success. */
  ghost predicate Faithful(req: Request, seen: Seen, o: Outcome) {
    && (seen.Success? ==> o.Done?)
    && (o.Done? ==> seen.Success? || (Closes(req) && seen.ErrPluginShutdown?))
    && (seen.ErrNotImplemented? <==> (o.Failed? && o.e.NotImplemented?) || StatusOf(o, Unimplemented))
    && (seen.ErrInvalidSignature? <==>
        Verifies(req) && ((o.Failed? && o.e.InvalidSignature?) || StatusOf(o, InvalidArgument)))
    && (seen.ErrNoInstance? <==> o.Missing? || StatusOf(o, NotFound))
    && (o.Failed? && o.e.Plain? ==> seen == Text(o.e.msg))
  }

  lemma ReturnedCallsAreFaithful(es: seq<Event>, t: Thread)
    requires Exec(Kms, Init(), es).Some? && PcOf(Exec(Kms, Init(), es).value, t).Returned?
    ensures var Returned(req, seen, o) := PcOf(Exec(Kms, Init(), es).value, t);
            var d := DirectExec(NOTHING, es);
            d.Some? && DirectPcOf(d.value, t) == Told(req, o) && Faithful(req, seen, o)
  {
    RegistryRefinesDirectUse(Kms, es);
    ExecRelays(Kms, Init(), es);
    var Returned(req, seen, o) := PcOf(Exec(Kms, Init(), es).value, t);
    assert Relayed(Kms, PcOf(Exec(Kms, Init(), es).value, t));
    var shutdown :| seen == Shown(Kms, RpcOf(req), o, shutdown);
    SentinelsSurvive(RpcOf(req), o, shutdown);
    SuccessShownExactly(Kms, RpcOf(req), o, shutdown);
  }
}
