/** Reference-counted PKCS #11 libraries, kms/pkcs11/internal/module/module.go.

    Open runs entirely under cacheLock; Drop marks its Ref with an atomic swap first and takes the
    lock afterwards. Each of these three sections is a function on the contents of the cache, and
    class Registry performs them step by step. Loading and initialising a library can fail. */
module ModuleCache {
  import opened Common

  type Path = nat       // a canonical library path
  type ModuleId = nat   // loaded libraries in the order they were initialised
  type RefId = nat
  type Thread = nat

  /** A loaded library. The history variables count the calls of Finalize and Destroy. */
  datatype Library = Library(path: Path, refs: int, finalized: nat, destroyed: nat)

  /** A Ref. `dropped` is its atomic flag; `settled` says that the count was decremented for it. */
  datatype Ref = Ref(mod: ModuleId, dropped: bool, settled: bool)

  datatype Contents = Contents(libs: seq<Library>, cache: map<Path, ModuleId>, refs: seq<Ref>)

  datatype Loading = Unloadable | Uninitializable | Loads

  function Open(c: Contents, path: Path, loading: Loading): (Contents, Option<RefId>) {
    if path in c.cache && c.cache[path] < |c.libs| then
      var m := c.cache[path];
      (c.(libs := c.libs[m := c.libs[m].(refs := c.libs[m].refs + 1)], refs := c.refs + [Ref(m, false, false)]),
       Some(|c.refs|))
    else if !loading.Loads? then (c, None)
    else
      (Contents(c.libs + [Library(path, 1, 0, 0)], c.cache[path := |c.libs|], c.refs + [Ref(|c.libs|, false, false)]),
       Some(|c.refs|))
  }

  /** The swap of line 102; false is the error "reference was already dropped". */
  function Mark(c: Contents, r: RefId): (Contents, bool)
    requires r < |c.refs|
  {
    if c.refs[r].dropped then (c, false) else (c.(refs := c.refs[r := c.refs[r].(dropped := true)]), true)
  }

  /** Lines 106 to 124. */
  function Settle(c: Contents, r: RefId): Contents
    requires r < |c.refs| && c.refs[r].mod < |c.libs|
  {
    var m := c.refs[r].mod;
    var lib := c.libs[m].(refs := c.libs[m].refs - 1);
    var refs := c.refs[r := c.refs[r].(settled := true)];
    if lib.refs != 0 then c.(libs := c.libs[m := lib], refs := refs)
    else Contents(c.libs[m := lib.(finalized := lib.finalized + 1, destroyed := lib.destroyed + 1)],
                  c.cache - {lib.path}, refs)
  }

  // ---- The invariant --------------------------------------------------------------------------------

  function Unsettled(refs: seq<Ref>, m: ModuleId): set<RefId> {
    set r | 0 <= r < |refs| && refs[r].mod == m && !refs[r].settled
  }

  ghost predicate LibraryOk(c: Contents, m: ModuleId)
    requires m < |c.libs|
  {
    var lib := c.libs[m];
    && lib.refs == |Unsettled(c.refs, m)|
    && (lib.refs > 0 <==> lib.path in c.cache && c.cache[lib.path] == m)
    && lib.finalized == lib.destroyed == (if lib.refs == 0 then 1 else 0)
  }

  ghost predicate Valid(c: Contents) {
    && (forall m :: 0 <= m < |c.libs| ==> LibraryOk(c, m))
    && (forall path :: path in c.cache ==> c.cache[path] < |c.libs| && c.libs[c.cache[path]].path == path)
    && (forall r :: 0 <= r < |c.refs| ==> c.refs[r].mod < |c.libs| && (c.refs[r].settled ==> c.refs[r].dropped))
  }

  /** Library m of c' is the one that c has cached for the path, or else the only new one. */
  ghost predicate Serves(c: Contents, c': Contents, path: Path, m: ModuleId) {
    && m < |c'.libs| && c'.libs[m].path == path
    && |c.libs| <= |c'.libs| && (forall n :: 0 <= n < |c.libs| && n != m ==> c'.libs[n] == c.libs[n])
    && if path in c.cache then m == c.cache[path] && |c'.libs| == |c.libs| && c'.cache == c.cache
       else m == |c.libs| && |c'.libs| == |c.libs| + 1 && c'.cache == c.cache[path := m]
  }

  lemma UnsettledAppend(refs: seq<Ref>, ref: Ref, m: ModuleId)
    requires !ref.settled
    ensures |Unsettled(refs + [ref], m)| == |Unsettled(refs, m)| + if ref.mod == m then 1 else 0
  {
    assert Unsettled(refs + [ref], m) == if ref.mod == m then Unsettled(refs, m) + {|refs|} else Unsettled(refs, m);
  }

  lemma UnsettledSettle(refs: seq<Ref>, r: RefId, m: ModuleId)
    requires r < |refs| && !refs[r].settled
    ensures |Unsettled(refs[r := refs[r].(settled := true)], m)| == |Unsettled(refs, m)| - if refs[r].mod == m then 1 else 0
  {
    assert Unsettled(refs[r := refs[r].(settled := true)], m) == Unsettled(refs, m) - {r};
    assert r in Unsettled(refs, m) <==> refs[r].mod == m;
  }

  /** Open succeeds exactly if the path is cached or its library loads and initialises, and then returns
      a new Ref to the library of the path: the cached one, or else a new one. */
  lemma OpenValid(c: Contents, path: Path, loading: Loading)
    requires Valid(c)
    ensures var (c', r) := Open(c, path, loading);
            Valid(c') && (r.Some? <==> path in c.cache || loading.Loads?) && (r == None ==> c' == c) &&
            (r.Some? ==> r.value == |c.refs| && |c'.refs| == |c.refs| + 1 && c'.refs[..|c.refs|] == c.refs &&
                         !c'.refs[r.value].dropped && !c'.refs[r.value].settled && Serves(c, c', path, c'.refs[r.value].mod))
  {
    var (c', o) := Open(c, path, loading);
    if o.Some? {
      var ref := c'.refs[|c.refs|];
      forall m | 0 <= m < |c'.libs| ensures LibraryOk(c', m) {
        UnsettledAppend(c.refs, ref, m);
        if m < |c.libs| {
          assert LibraryOk(c, m);
        } else {
          assert Unsettled(c.refs, m) == {};
        }
      }
    }
  }

  lemma MarkValid(c: Contents, r: RefId)
    requires Valid(c) && r < |c.refs|
    ensures Valid(Mark(c, r).0)
  {
    var c' := Mark(c, r).0;
    forall m | 0 <= m < |c'.libs| ensures LibraryOk(c', m) {
      assert LibraryOk(c, m);
      assert Unsettled(c'.refs, m) == Unsettled(c.refs, m);
    }
  }

  lemma SettleValid(c: Contents, r: RefId)
    requires Valid(c) && r < |c.refs| && c.refs[r].dropped && !c.refs[r].settled
    ensures Valid(Settle(c, r))
  {
    var c' := Settle(c, r);
    var m := c.refs[r].mod;
    assert LibraryOk(c, m) && r in Unsettled(c.refs, m);
    forall n | 0 <= n < |c'.libs| ensures LibraryOk(c', n) {
      assert LibraryOk(c, n);
      UnsettledSettle(c.refs, r, n);
    }
  }

  /** One Ref to library m came off its count, and it was unloaded if that was the last. */
  ghost predicate Released(c: Contents, c': Contents, m: ModuleId) {
    && m < |c.libs| && |c'.libs| == |c.libs| && (forall n :: 0 <= n < |c.libs| && n != m ==> c'.libs[n] == c.libs[n])
    && c'.libs[m].refs == c.libs[m].refs - 1
    && var last := if c.libs[m].refs == 1 then 1 else 0;
       c'.libs[m].finalized == c.libs[m].finalized + last && c'.libs[m].destroyed == c.libs[m].destroyed + last &&
       c'.cache == if last == 1 then c.cache - {c.libs[m].path} else c.cache
  }

  class Registry {
    var libs: seq<Library>
    var cache: map<Path, ModuleId>
    var refs: seq<Ref>

    ghost function Snapshot(): Contents
      reads this
    {
      Contents(libs, cache, refs)
    }

    constructor ()
      ensures Snapshot() == Contents([], map[], []) && Valid(Snapshot())
    {
      libs, cache, refs := [], map[], [];
    }

    method OpenPath(path: Path, loading: Loading) returns (r: Option<RefId>)
      requires Valid(Snapshot())
      modifies this
      ensures (Snapshot(), r) == Open(old(Snapshot()), path, loading)
      ensures Valid(Snapshot())
      ensures r.Some? <==> path in old(cache) || loading.Loads?
      ensures r.None? ==> Snapshot() == old(Snapshot())
      ensures r.Some? ==> r.value < |refs| && Serves(old(Snapshot()), Snapshot(), path, refs[r.value].mod)
    {
      OpenValid(Snapshot(), path, loading);
      if path in cache {
        var m := cache[path];
        libs := libs[m := libs[m].(refs := libs[m].refs + 1)];
        refs := refs + [Ref(m, false, false)];
        return Some(|refs| - 1);
      }
      match loading
      case Unloadable => return None;
      case Uninitializable => return None;
      case Loads =>
        libs := libs + [Library(path, 1, 0, 0)];
        cache := cache[path := |libs| - 1];
        refs := refs + [Ref(|libs| - 1, false, false)];
        return Some(|refs| - 1);
    }

    /** Drop without interruption: a repeated Drop changes nothing, a first one gives back exactly
        this reference and unloads the library if it was the last. */
    method Drop(r: RefId) returns (ok: bool)
      requires Valid(Snapshot()) && r < |refs|
      modifies this
      ensures ok <==> !old(refs)[r].dropped
      ensures Snapshot() == if ok then Settle(Mark(old(Snapshot()), r).0, r) else old(Snapshot())
      ensures Valid(Snapshot())
      ensures ok ==> refs == old(refs)[r := Ref(old(refs)[r].mod, true, true)] && |libs| == |old(libs)|
      ensures ok ==> Released(old(Snapshot()), Snapshot(), old(refs)[r].mod)
    {
      MarkValid(Snapshot(), r);
      if refs[r].dropped {
        return false;
      }
      refs := refs[r := refs[r].(dropped := true)];
      SettleValid(Snapshot(), r);
      var m := refs[r].mod;
      libs := libs[m := libs[m].(refs := libs[m].refs - 1)];
      refs := refs[r := refs[r].(settled := true)];
      if libs[m].refs == 0 {
        libs := libs[m := libs[m].(finalized := libs[m].finalized + 1)];
        libs := libs[m := libs[m].(destroyed := libs[m].destroyed + 1)];
        cache := cache - {libs[m].path};
      }
      return true;
    }
  }

  // ---- Concurrent use -------------------------------------------------------------------------------

  /** pending: the threads between the two sections of Drop. */
  datatype State = State(c: Contents, pending: map<Thread, RefId>)

  datatype Event =
    | CallOpen(path: Path, loading: Loading)
    | CallDrop(t: Thread, r: RefId)
    | Finish(t: Thread)

  predicate Enabled(s: State, e: Event) {
    match e
    case CallOpen(_, _) => true
    case CallDrop(t, r) => t !in s.pending && r < |s.c.refs|
    case Finish(t) => t in s.pending && s.pending[t] < |s.c.refs| && s.c.refs[s.pending[t]].mod < |s.c.libs|
  }

  function Apply(s: State, e: Event): State
    requires Enabled(s, e)
  {
    match e
    case CallOpen(path, loading) => s.(c := Open(s.c, path, loading).0)
    case CallDrop(t, r) => if Mark(s.c, r).1 then State(Mark(s.c, r).0, s.pending[t := r]) else s
    case Finish(t) => State(Settle(s.c, s.pending[t]), s.pending - {t})
  }

  function Exec(s: State, es: seq<Event>): Option<State>
    decreases |es|
  {
    if es == [] then Some(s)
    else if Enabled(s, es[0]) then Exec(Apply(s, es[0]), es[1..])
    else None
  }

  /** A reference that is dropped and not settled has exactly one thread that will settle it. */
  ghost predicate Pending(s: State) {
    && (forall t :: t in s.pending ==>
          s.pending[t] < |s.c.refs| && s.c.refs[s.pending[t]].dropped && !s.c.refs[s.pending[t]].settled)
    && (forall t, u :: t in s.pending && u in s.pending && s.pending[t] == s.pending[u] ==> t == u)
  }

  lemma StepValid(s: State, e: Event)
    requires Valid(s.c) && Pending(s) && Enabled(s, e)
    ensures Valid(Apply(s, e).c) && Pending(Apply(s, e))
  {
    match e
    case CallOpen(path, loading) => OpenValid(s.c, path, loading);
    case CallDrop(t, r) => MarkValid(s.c, r);
    case Finish(t) => SettleValid(s.c, s.pending[t]);
  }

  lemma {:induction false} ExecValid(s: State, es: seq<Event>)
    requires Valid(s.c) && Pending(s) && Exec(s, es).Some?
    ensures Valid(Exec(s, es).value.c) && Pending(Exec(s, es).value)
    decreases |es|
  {
    if es == [] {
    } else {
      StepValid(s, es[0]);
      ExecValid(Apply(s, es[0]), es[1..]);
    }
  }

  const EMPTY := State(Contents([], map[], []), map[])

  /** Over any interleaving: the count of a library is the number of its Refs not yet accounted for
      as dropped, its path is cached exactly while the count is positive, and Finalize and Destroy
      have each run once if it is zero and not at all before. */
  lemma RefcountExact(es: seq<Event>, m: ModuleId)
    requires Exec(EMPTY, es).Some? && m < |Exec(EMPTY, es).value.c.libs|
    ensures var c := Exec(EMPTY, es).value.c; var lib := c.libs[m];
            lib.refs == |Unsettled(c.refs, m)| &&
            (lib.refs > 0 <==> lib.path in c.cache && c.cache[lib.path] == m) &&
            lib.finalized == lib.destroyed == (if lib.refs == 0 then 1 else 0)
  {
    ExecValid(EMPTY, es);
    assert LibraryOk(Exec(EMPTY, es).value.c, m);
  }
}
