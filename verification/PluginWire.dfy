/** What crosses the wire between a plugin client and its server: errors as gRPC statuses
    (plugin/kms_server.go, kms_client.go, wrapper_server.go, wrapper_client.go) and the options of
    Sign and Verify. */
module PluginWire {
  import opened Common

  // ---- Errors -----------------------------------------------------------------------------------

  datatype Side = Kms | Wrapper

  /** Which RPC: Verify is answered specially; Close, Init and Finalize hand even a nil error to
      handleRPCError. */
  datatype Rpc = Verify | Unconditional | Ordinary

  datatype Code = Unknown | InvalidArgument | NotFound | Unimplemented | OtherCode(n: nat)

  datatype Status = Status(code: Code, msg: string)

  /** An error of the object behind the server: it matches a sentinel, has a gRPC status of its own
      (gRPC gives one to context errors), or neither. */
  datatype ObjectError =
    | NotImplemented(msg: string)
    | InvalidSignature(msg: string)
    | WithStatus(status: Status)
    | Plain(msg: string)

  /** Missing: the server has no object for the id. */
  datatype Outcome = Done | Failed(e: ObjectError) | Missing

  datatype Seen =
    | Success
    | ErrNotImplemented
    | ErrInvalidSignature
    | ErrNoInstance
    | ErrPluginShutdown
    | Text(msg: string)
    | Raw(status: Status)

  /** gRPC gives an error that has no status the code Unknown. */
  function Transport(e: ObjectError): Status {
    if e.WithStatus? then e.status else Status(Unknown, e.msg)
  }

  function HandleKMSError(e: ObjectError): Status {
    if e.NotImplemented? then Status(Unimplemented, e.msg) else Transport(e)
  }

  /** What the server sends; None is success. */
  function Answer(side: Side, rpc: Rpc, o: Outcome): Option<Status> {
    match o
    case Done => None
    case Missing => Some(Status(NotFound, "instance not found"))
    case Failed(e) =>
      if side.Wrapper? then Some(Transport(e))
      else if rpc.Verify? && e.InvalidSignature? then Some(Status(InvalidArgument, e.msg))
      else Some(HandleKMSError(e))
  }

  /** `shutdown`: the context of the plugin client is done. */
  function HandleRPCError(status: Option<Status>, shutdown: bool): Seen {
    match status
    case None => if shutdown then ErrPluginShutdown else Success
    case Some(st) =>
      match st.code
      case Unknown => Text(st.msg)
      case Unimplemented => ErrNotImplemented
      case NotFound => ErrNoInstance
      case _ => if shutdown then ErrPluginShutdown else Raw(st)
  }

  function Receive(side: Side, rpc: Rpc, status: Option<Status>, shutdown: bool): Seen {
    if side.Kms? && rpc.Verify? && status.Some? && status.value.code.InvalidArgument? then ErrInvalidSignature
    else if rpc.Unconditional? || status.Some? then HandleRPCError(status, shutdown)
    else Success
  }

  /** What the caller sees of an outcome on the other side. */
  function Shown(side: Side, rpc: Rpc, o: Outcome, shutdown: bool): Seen {
    Receive(side, rpc, Answer(side, rpc, o), shutdown)
  }

  predicate StatusOf(o: Outcome, code: Code) {
    o.Failed? && o.e.WithStatus? && o.e.status.code == code
  }

  /** Each sentinel is seen exactly when the object returned it or an error that carries its code. */
  lemma SentinelsSurvive(rpc: Rpc, o: Outcome, shutdown: bool)
    ensures Shown(Kms, rpc, o, shutdown) == ErrNotImplemented <==>
            (o.Failed? && o.e.NotImplemented?) || StatusOf(o, Unimplemented)
    ensures Shown(Kms, rpc, o, shutdown) == ErrInvalidSignature <==>
            rpc.Verify? && ((o.Failed? && o.e.InvalidSignature?) || StatusOf(o, InvalidArgument))
    ensures forall side :: Shown(side, rpc, o, shutdown) == ErrNoInstance <==> o.Missing? || StatusOf(o, NotFound)
  {
  }

  /** A call that succeeded is reported as failed only by Close, Init and Finalize of a plugin whose
      context is done, and a call that failed is never reported as a success. */
  lemma SuccessShownExactly(side: Side, rpc: Rpc, o: Outcome, shutdown: bool)
    ensures Shown(side, rpc, o, shutdown) == Success <==> o.Done? && !(rpc.Unconditional? && shutdown)
    ensures o.Done? && Shown(side, rpc, o, shutdown) != Success ==> Shown(side, rpc, o, shutdown) == ErrPluginShutdown
  {
  }

  /** The object returned an error that has a status of its own, which no client turns into anything. */
  predicate Unmapped(side: Side, rpc: Rpc, o: Outcome) {
    o.Failed? && o.e.WithStatus? &&
    match o.e.status.code
    case InvalidArgument => side.Wrapper? || !rpc.Verify?
    case OtherCode(_) => true
    case _ => false
  }

  /** A failure is shown as the error of the transport exactly if it has such a status and the plugin does not
      shut down; ErrPluginShutdown takes its place if it does, and that of a success of Close, Init and
      Finalize. */
  lemma ShutdownShownExactly(side: Side, rpc: Rpc, o: Outcome, shutdown: bool)
    ensures Shown(side, rpc, o, shutdown).Raw? <==> !shutdown && Unmapped(side, rpc, o)
    ensures Shown(side, rpc, o, shutdown).Raw? ==> Shown(side, rpc, o, shutdown).status == o.e.status
    ensures Shown(side, rpc, o, shutdown) == ErrPluginShutdown <==>
            shutdown && (Unmapped(side, rpc, o) || (o.Done? && rpc.Unconditional?))
  {
  }

  /** An ordinary error keeps its text, even when the plugin shuts down. */
  lemma TextSurvives(side: Side, rpc: Rpc, e: ObjectError, shutdown: bool)
    ensures Shown(side, rpc, Failed(e), shutdown).Text? <==>
            e.Plain? || StatusOf(Failed(e), Unknown) || (e.InvalidSignature? && (side.Wrapper? || !rpc.Verify?)) ||
            (e.NotImplemented? && side.Wrapper?)
    ensures Shown(side, rpc, Failed(e), shutdown).Text? ==> Shown(side, rpc, Failed(e), shutdown).msg == Transport(e).msg
  {
  }

  /** The wrapper server does not translate errors, so its sentinel arrives as mere text, although
      the client is prepared to turn a status back into it. */
  lemma WrapperSentinelLost(rpc: Rpc, msg: string, shutdown: bool)
    ensures Shown(Wrapper, rpc, Failed(NotImplemented(msg)), shutdown) == Text(msg)
    ensures Receive(Wrapper, rpc, Some(HandleKMSError(NotImplemented(msg))), shutdown) == ErrNotImplemented
  {
  }

  // ---- SignerOpts ---------------------------------------------------------------------------------

  const INT32_MIN := -0x8000_0000
  const INT32_MAX := 0x7fff_ffff
  const INT_MIN := -0x8000_0000_0000_0000
  const INT_MAX := 0x7fff_ffff_ffff_ffff

  type int32 = x: int | INT32_MIN <= x <= INT32_MAX
  type goint = x: int | INT_MIN <= x <= INT_MAX

  /** crypto.SignerOpts; a crypto.Hash is a uint. */
  datatype SignerOpts =
    | JustHash(hash: uint)
    | PSS(salt: goint, hash: uint)
    | Ed25519(context: string, hash: uint)
    | OtherOpts(hash: uint)

  datatype ProtoOpts = NoOpts | Pss(salt: int32) | Ed(context: string) | NoVariant

  /** Go's conversion int32(x). */
  function ToInt32(x: int): int32 {
    (x - INT32_MIN) % UINT32_MOD + INT32_MIN
  }

  /** Go's conversion of an int32 to uint, which extends the sign. */
  function ToUint(x: int32): uint {
    if x < 0 then x + UINT_MOD else x
  }

  /** The fields Hash and Opts of a request; None is the error for an unsupported type. */
  function ToProto(opts: Option<SignerOpts>): Option<(int32, ProtoOpts)> {
    match opts
    case None => Some((0, NoOpts))
    case Some(JustHash(h)) => Some((ToInt32(h), NoOpts))
    case Some(PSS(salt, h)) => Some((ToInt32(h), Pss(ToInt32(salt))))
    case Some(Ed25519(context, h)) => Some((ToInt32(h), Ed(context)))
    case Some(OtherOpts(_)) => None
  }

  function FromProto(hash: int32, opts: ProtoOpts): Option<SignerOpts> {
    match opts
    case NoOpts => Some(JustHash(ToUint(hash)))
    case Pss(salt) => Some(PSS(salt, ToUint(hash)))
    case Ed(context) => Some(Ed25519(context, ToUint(hash)))
    case NoVariant => None
  }

  /** The hash survives the detour through int32. */
  predicate HashFits(h: uint) {
    h <= INT32_MAX || h >= UINT_MOD + INT32_MIN
  }

  lemma HashRoundTrip(h: uint)
    ensures ToUint(ToInt32(h)) == h <==> HashFits(h)
  {
    var q := (h - INT32_MIN) / UINT32_MOD;
    assert h - INT32_MIN == UINT32_MOD * q + (h - INT32_MIN) % UINT32_MOD;
    if h >= UINT_MOD + INT32_MIN {
      assert q == UINT32_MOD;
    } else if h <= INT32_MAX {
      assert q == 0;
    }
  }

  lemma SaltRoundTrip(salt: int)
    ensures ToInt32(salt) == salt <==> INT32_MIN <= salt <= INT32_MAX
  {
  }

  /** Options arrive as they were sent exactly when they are of a supported type and their numbers
      fit; nil options arrive as the zero hash. */
  lemma OptsRoundTrip(o: SignerOpts)
    ensures (ToProto(Some(o)).Some? && FromProto(ToProto(Some(o)).value.0, ToProto(Some(o)).value.1) == Some(o)) <==>
            !o.OtherOpts? && HashFits(o.hash) && (o.PSS? ==> INT32_MIN <= o.salt <= INT32_MAX)
    ensures FromProto(ToProto(None).value.0, ToProto(None).value.1) == Some(JustHash(0))
  {
    HashRoundTrip(o.hash);
    if o.PSS? {
      SaltRoundTrip(o.salt);
    }
  }

  /** Whatever the server accepts, a client sends the same way again. */
  lemma ProtoRoundTrip(hash: int32, opts: ProtoOpts)
    requires FromProto(hash, opts).Some?
    ensures ToProto(FromProto(hash, opts)) == Some((hash, opts))
  {
    assert ToInt32(ToUint(hash)) == hash by {
      if hash < 0 {
        assert ToUint(hash) - INT32_MIN == UINT32_MOD * UINT32_MOD + (hash - INT32_MIN);
      }
    }
    if opts.Pss? {
      SaltRoundTrip(opts.salt);
    }
  }
}
