/** The id-to-object maps of the plugin servers (plugin/kms_server.go, wrapper_server.go) and the
    clients that hold ids (plugin/kms_client.go, wrapper_client.go), under concurrent calls.

    A section under a lock, a call of the object behind the server and the receipt of a response are
    one event each. Open and SetConfig are Create, Close and Finalize are Destroy, GetKey is
    MakeKey; Use and UseKey are the other calls of a service, a wrapper or a key. Ids are UUIDs:
    a new one is assumed to be different from all before. */
module PluginRegistry {
  import opened Common
  import opened PluginWire

  type Id = nat
  type Ref = nat          // an object behind the server, in the order of creation
  type Thread = nat
  type Client = nat       // a client-side KMS or wrapper
  type KeyClient = nat    // a client-side key

  datatype Request =
    | Create(c: Client)
    | Use(c: Client, init: bool)                           // init: Init of a wrapper
    | MakeKey(c: Client, k: KeyClient)
    | Destroy(c: Client)
    | UseKey(k: KeyClient, use: KeyUse)

  datatype KeyUse =
    | Cipher
    | Signing(verify: bool, opts: Option<SignerOpts>)      // Sign or Verify

  /** The two maps of a server; a wrapper server has one. */
  datatype Tables = Tables(services: map<Id, Ref>, keys: map<Id, Ref>)

  datatype Pc =
    | Idle
    | Sent(id: Option<Id>, req: Request)                   // the client has read its id
    | Calling(ref: Ref, req: Request)                      // the server found or made the object
    | Registering(ref: Ref, req: Request)                  // the object to enter into a map
    | Answered(req: Request, o: Outcome, id: Option<Id>)
    | Returned(req: Request, seen: Seen, o: Outcome)       // o is a history variable

  /** `issued` is every id ever given out, with its object, `log` the calls of objects that have
      returned, as the objects received them, and `asked` the same calls as the clients made them
      (history variables). `orphans` are the ids of unreachable keys whose cleanup has yet
      to run. */
  datatype State = State(
    tables: Tables,
    clients: map<Client, Id>,
    keyClients: map<KeyClient, Id>,
    orphans: set<Id>,
    objects: nat,
    issued: map<Id, Ref>,
    log: seq<(Ref, Request)>,
    asked: seq<(Ref, Request)>,
    pcs: map<Thread, Pc>)

  datatype Event =
    | Call(t: Thread, req: Request)
    | Lookup(t: Thread)
    | Respond(t: Thread, e: Option<ObjectError>)
    | Register(t: Thread, uuid: Option<Id>)                 // None: no UUID could be made
    | Receive(t: Thread, shutdown: bool)
    | Finish(t: Thread)
    | DropKey(k: KeyClient)                                // the key becomes unreachable
    | CloseKey(id: Id)                                     // its cleanup runs

  const NO_UUID := Plain("uuid")

  function Init(): State {
    State(Tables(map[], map[]), map[], map[], {}, 0, map[], [], [], map[])
  }

  function PcOf(s: State, t: Thread): Pc {
    if t in s.pcs then s.pcs[t] else Idle
  }

  /** Close, Finalize and Init are the calls with an unconditional conversion. */
  function RpcOf(req: Request): Rpc {
    if req.Destroy? || (req.Use? && req.init) then Unconditional
    else if req.UseKey? && req.use.Signing? && req.use.verify then Verify
    else Ordinary
  }

  /** The request has a form on the wire. */
  predicate Encodable(req: Request) {
    req.UseKey? && req.use.Signing? ==> ToProto(req.use.opts).Some?
  }

  /** The request as the object receives it, with its options decoded. */
  function Arriving(req: Request): Request {
    if req.UseKey? && req.use.Signing? && ToProto(req.use.opts).Some? then
      var (hash, opts) := ToProto(req.use.opts).value;
      req.(use := req.use.(opts := FromProto(hash, opts)))
    else req
  }

  /** The id a client sends. */
  function Target(s: State, req: Request): Option<Id> {
    match req
    case UseKey(k, _) => if k in s.keyClients then Some(s.keyClients[k]) else None
    case _ => if req.c in s.clients then Some(s.clients[req.c]) else None
  }

  /** Some thread is in the middle of a call that mentions key client k, which keeps it reachable. */
  ghost predicate InUse(s: State, k: KeyClient) {
    exists t :: t in s.pcs && Mentions(s.pcs[t], k)
  }

  predicate Mentions(pc: Pc, k: KeyClient) {
    !pc.Idle? && (pc.req.UseKey? || pc.req.MakeKey?) && pc.req.k == k
  }

  ghost predicate Enabled(s: State, e: Event) {
    match e
    case Call(t, req) =>
      PcOf(s, t).Idle? && (req.UseKey? ==> req.k in s.keyClients) &&
      (req.MakeKey? ==> req.k !in s.keyClients && !InUse(s, req.k))
    case Lookup(t) => PcOf(s, t).Sent?
    case Respond(t, _) => PcOf(s, t).Calling?
    case Register(t, uuid) => PcOf(s, t).Registering? && (uuid.Some? ==> uuid.value !in s.issued)
    case Receive(t, _) => PcOf(s, t).Answered?
    case Finish(t) => PcOf(s, t).Returned?
    case DropKey(k) => k in s.keyClients && !InUse(s, k)
    case CloseKey(id) => id in s.orphans
  }

  // ---- The sections of the server -------------------------------------------------------------------

  /** service(id), key(id), get(id), and the first halves of Close and Finalize. */
  function Find(tables: Tables, id: Option<Id>, req: Request): (Tables, Option<Ref>) {
    var table := if req.UseKey? then tables.keys else tables.services;
    if id.None? || id.value !in table then (tables, None)
    else if req.Destroy? then (tables.(services := tables.services - {id.value}), Some(table[id.value]))
    else (tables, Some(table[id.value]))
  }

  function Insert(tables: Tables, id: Id, ref: Ref, req: Request): Tables {
    if req.MakeKey? then tables.(keys := tables.keys[id := ref])
    else tables.(services := tables.services[id := ref])
  }

  function Goto(s: State, t: Thread, pc: Pc): State {
    s.(pcs := s.pcs[t := pc])
  }

  function Deliver(s: State, req: Request, id: Option<Id>): State {
    if id.None? then s
    else if req.Create? then s.(clients := s.clients[req.c := id.value])
    else if req.MakeKey? then s.(keyClients := s.keyClients[req.k := id.value])
    else s
  }

  ghost function Apply(side: Side, s: State, e: Event): State
    requires Enabled(s, e)
  {
    match e
    case Call(t, req) =>
      if req.Create? && req.c in s.clients then Goto(s, t, Returned(req, Text("already opened"), Failed(Plain("already opened"))))
      else if !Encodable(req) then Goto(s, t, Returned(req, Text("unsupported options"), Failed(Plain("unsupported options"))))
      else Goto(s, t, Sent(Target(s, req), req))
    case Lookup(t) =>
      var Sent(id, req) := PcOf(s, t);
      if req.Create? then Goto(s.(objects := s.objects + 1), t, Calling(s.objects, req))
      else
        var (tables, ref) := Find(s.tables, id, req);
        Goto(s.(tables := tables), t, if ref.Some? then Calling(ref.value, req) else Answered(req, Missing, None))
    case Respond(t, e) =>
      var Calling(ref, req) := PcOf(s, t);
      var s' := s.(log := s.log + [(ref, Arriving(req))], asked := s.asked + [(ref, req)]);
      if e.Some? then Goto(s', t, Answered(req, Failed(e.value), None))
      else if req.Create? then Goto(s', t, Registering(ref, req))
      else if req.MakeKey? then Goto(s'.(objects := s.objects + 1), t, Registering(s.objects, req))
      else Goto(s', t, Answered(req, Done, None))
    case Register(t, uuid) =>
      var Registering(ref, req) := PcOf(s, t);
      if uuid.None? then Goto(s, t, Answered(req, Failed(NO_UUID), None))
      else
        Goto(s.(tables := Insert(s.tables, uuid.value, ref, req), issued := s.issued[uuid.value := ref]),
             t, Answered(req, Done, uuid))
    case Receive(t, shutdown) =>
      var Answered(req, o, id) := PcOf(s, t);
      Goto(Deliver(s, req, id), t, Returned(req, Shown(side, RpcOf(req), o, shutdown), o))
    case Finish(t) => Goto(s, t, Idle)
    case DropKey(k) => s.(keyClients := s.keyClients - {k}, orphans := s.orphans + {s.keyClients[k]})
    case CloseKey(id) => s.(tables := s.tables.(keys := s.tables.keys - {id}), orphans := s.orphans - {id})
  }

  ghost function Exec(side: Side, s: State, es: seq<Event>): Option<State>
    decreases |es|
  {
    if es == [] then Some(s)
    else if Enabled(s, es[0]) then Exec(side, Apply(side, s, es[0]), es[1..])
    else None
  }

  /** The server's state, changed in place by its handlers. */
  class Server {
    var services: map<Id, Ref>
    var keys: map<Id, Ref>

    function Contents(): Tables
      reads this
    {
      Tables(services, keys)
    }

    constructor ()
      ensures Contents() == Tables(map[], map[])
    {
      services, keys := map[], map[];
    }

    method Service(id: Id) returns (r: Option<Ref>)
      ensures forall c, init :: (Contents(), r) == Find(Contents(), Some(id), Use(c, init))
    {
      if id in services {
        return Some(services[id]);
      }
      return None;
    }

    method Key(id: Id) returns (r: Option<Ref>)
      ensures forall k, use :: (Contents(), r) == Find(Contents(), Some(id), UseKey(k, use))
    {
      if id in keys {
        return Some(keys[id]);
      }
      return None;
    }

    /** Close and Finalize: whoever gets the object is the only one ever to get it for that purpose. */
    method Remove(id: Id) returns (r: Option<Ref>)
      modifies this
      ensures forall c :: (Contents(), r) == Find(old(Contents()), Some(id), Destroy(c))
      ensures id !in services && keys == old(keys)
    {
      if id !in services {
        return None;
      }
      r := Some(services[id]);
      services := services - {id};
    }

    /** The end of Open and GetKey: the new object is entered under its UUID, if one could be made. */
    method Register(ref: Ref, req: Request, uuid: Option<Id>) returns (o: Outcome)
      requires req.Create? || req.MakeKey?
      modifies this
      ensures o == if uuid.Some? then Done else Failed(NO_UUID)
      ensures Contents() == if uuid.Some? then Insert(old(Contents()), uuid.value, ref, req) else old(Contents())
    {
      if uuid.None? {
        return Failed(NO_UUID);
      }
      if req.MakeKey? {
        keys := keys[uuid.value := ref];
      } else {
        services := services[uuid.value := ref];
      }
      return Done;
    }

    method CloseKey(id: Id)
      modifies this
      ensures Contents() == old(Contents()).(keys := old(keys) - {id})
    {
      keys := keys - {id};
    }
  }

  /** A client-side KMS or wrapper: its id is set once, by the first Open or SetConfig that succeeds. */
  class RemoteClient {
    const side: Side
    var id: Option<Id>

    constructor (side: Side)
      ensures this.side == side && id == None
    {
      this.side := side;
      id := None;
    }

    /** Open and SetConfig; `reply` is the id the server would answer with, or its error. */
    method Configure(o: Outcome, reply: Id, shutdown: bool) returns (seen: Seen)
      modifies this
      ensures old(id).Some? ==> id == old(id) && seen.Text?
      ensures old(id).None? ==> seen == Shown(side, Ordinary, o, shutdown) && (id == Some(reply) <==> seen.Success?)
      ensures id != old(id) ==> seen.Success? && id == Some(reply)
    {
      if id.Some? {
        return Text(if side.Kms? then "already opened" else "already configured");
      }
      var status := Answer(side, Ordinary, o);
      if status.Some? {
        return HandleRPCError(status, shutdown);
      }
      id := Some(reply);
      return Success;
    }

    /** Close and Finalize: the id is kept, so a later call is answered ErrNoInstance. */
    method Shut(o: Outcome, shutdown: bool) returns (seen: Seen)
      ensures seen == Shown(side, Unconditional, o, shutdown)
      ensures seen.Success? <==> o.Done? && !shutdown
    {
      seen := HandleRPCError(Answer(side, Unconditional, o), shutdown);
    }
  }
}
