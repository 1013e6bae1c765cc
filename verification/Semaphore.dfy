/** The closeable semaphore, kms/pkcs11/internal/session/semaphore.go.

    What each critical section does to the fields guarded by `mu` is given as a function on a
    snapshot of those fields; class SemaphoreCloser performs the sections step by step on its own
    fields and is proved against the functions. The interleaving of sections by concurrent
    callers is the subject of SemaphoreProtocol. */
module Semaphore {
  import opened Common

  /** The identity of a `ready` channel. Channels are made under `mu`, right before they are
      queued, so their identities are numbered in arrival order. */
  type Chan = nat

  /** The fields under `mu`. `granted` holds the channels that notify closed and whose nil value
      the waiter has not received yet: the channel state a waiter observes at lines 103 and 117. */
  datatype Fields = Fields(size: uint, cur: uint, waiters: seq<Chan>, closed: bool, granted: set<Chan>)

  datatype Outcome =
    | Rejected        // the semaphore is closed
    | Cancelled       // the context was done before trying
    | Acquired
    | Queued          // waits on the fresh channel

  function Notify(f: Fields): (r: Fields)
  {
    if f.waiters == [] || f.cur >= f.size then f
    else f.(cur := f.cur + 1, waiters := f.waiters[1..], granted := f.granted + {f.waiters[0]})
  }

  /** `s.cur--` on a uint. */
  function Decrement(cur: uint): uint {
    if cur == 0 then UINT_MOD - 1 else cur - 1
  }

  function AcquireInternal(f: Fields, done: bool, ready: Chan): (Fields, Outcome) {
    if done then (f, Cancelled)
    else if f.cur < f.size && f.waiters == [] then (f.(cur := f.cur + 1), Acquired)
    else (f.(waiters := f.waiters + [ready]), Queued)
  }

  function Acquire(f: Fields, done: bool, ready: Chan): (Fields, Outcome) {
    if f.closed then (f, Rejected) else AcquireInternal(f, done, ready)
  }

  /** None is the panic "released more than held". */
  function Release(f: Fields): Option<Fields> {
    if f.cur == 0 then None else Some(Notify(f.(cur := f.cur - 1)))
  }

  /** Lines 100 to 115: the waiter on channel ch saw its context end and took the lock. */
  function Withdraw(f: Fields, ch: Chan): Fields {
    if ch in f.granted then Notify(f.(cur := Decrement(f.cur), granted := f.granted - {ch}))
    else
      var isFront := f.waiters != [] && f.waiters[0] == ch;
      var g := f.(waiters := Without(f.waiters, ch));
      if isFront && g.size > g.cur then Notify(g) else g
  }

  /** Lines 69 to 74: what Close does once every waiter took its error. */
  function MarkClosed(f: Fields): Fields {
    f.(waiters := [], closed := true, size := 1)
  }

  /** A second notify right after a notify changes nothing as long as the queue only ever waits
      for capacity: one grant per freed token is enough. */
  lemma SingleGrantSuffices(f: Fields)
    requires f.waiters != [] ==> f.cur >= f.size
    requires f.cur > 0
    ensures var r := Release(f).value; Notify(r) == r && (r.waiters != [] ==> r.cur >= r.size)
  {
  }

  class SemaphoreCloser {
    var size: uint
    var cur: uint
    var waiters: seq<Chan>
    var closed: bool
    var granted: set<Chan>

    ghost function Snapshot(): Fields
      reads this
    {
      Fields(size, cur, waiters, closed, granted)
    }

    /** The fields once the first waiter is granted a token, when `spare` tokens came back before. */
    ghost function Granting(spare: uint): Fields
      requires waiters != [] && spare <= cur && cur - spare + 1 < UINT_MOD
      reads this
    {
      Fields(size, cur - spare + 1, waiters[1..], closed, granted + {waiters[0]})
    }

    constructor (size: uint)
      ensures Snapshot() == Fields(size, 0, [], false, {})
    {
      this.size, cur, waiters, closed, granted := size, 0, [], false, {};
    }

    method NotifyNext()
      modifies this
      ensures Snapshot() == Notify(old(Snapshot()))
      ensures old(waiters == [] || cur >= size) ==> Snapshot() == old(Snapshot())
      ensures old(waiters != [] && cur < size) ==> Snapshot() == old(Granting(0))
    {
      if waiters == [] || cur >= size {
        return;
      }
      var next := waiters[0];
      cur := cur + 1;
      waiters := waiters[1..];
      granted := granted + {next};
    }

    method TryAcquireInternal(done: bool, ready: Chan) returns (o: Outcome)
      modifies this
      ensures (Snapshot(), o) == AcquireInternal(old(Snapshot()), done, ready)
      ensures done ==> o == Cancelled && Snapshot() == old(Snapshot())
      ensures !done && old(cur < size && waiters == []) ==>
        o == Acquired && Snapshot() == old(Snapshot()).(cur := old(cur) + 1)
      ensures !done && old(cur >= size || waiters != []) ==>
        o == Queued && Snapshot() == old(Snapshot()).(waiters := old(waiters) + [ready])
    {
      if done {
        return Cancelled;
      }
      if cur < size && |waiters| == 0 {
        cur := cur + 1;
        return Acquired;
      }
      waiters := waiters + [ready];
      return Queued;
    }

    method TryAcquire(done: bool, ready: Chan) returns (o: Outcome)
      modifies this
      ensures (Snapshot(), o) == Acquire(old(Snapshot()), done, ready)
      ensures o.Rejected? <==> old(closed)
      ensures !o.Queued? && !o.Acquired? ==> Snapshot() == old(Snapshot())
    {
      if closed {
        return Rejected;
      }
      o := TryAcquireInternal(done, ready);
    }

    /** ok is false when Release panics. */
    method TryRelease() returns (ok: bool)
      modifies this
      ensures ok <==> Release(old(Snapshot())).Some?
      ensures Snapshot() == if ok then Release(old(Snapshot())).value else old(Snapshot())
      ensures ok <==> old(cur) > 0
      ensures ok ==> Snapshot() == if old(waiters != [] && cur <= size) then old(Granting(1))
                                   else old(Snapshot()).(cur := old(cur) - 1)
    {
      if cur == 0 {
        return false;
      }
      cur := cur - 1;
      NotifyNext();
      return true;
    }

    method RemoveWaiter(ch: Chan)
      modifies this`waiters
      ensures waiters == Without(old(waiters), ch)
    {
      var kept: seq<Chan>, i := [], 0;
      while i < |waiters| && waiters[i] != ch
        invariant 0 <= i <= |waiters|
        invariant kept == waiters[..i]
        invariant Without(waiters, ch) == kept + Without(waiters[i..], ch)
      {
        assert waiters[i..][1..] == waiters[i + 1..];
        kept := kept + [waiters[i]];
        i := i + 1;
      }
      if i < |waiters| {
        assert waiters[i..][1..] == waiters[i + 1..];
        waiters := kept + waiters[i + 1..];
      }
    }

    method WithdrawWaiter(ch: Chan)
      modifies this
      ensures Snapshot() == Withdraw(old(Snapshot()), ch)
    {
      if ch in granted {
        granted := granted - {ch};
        cur := Decrement(cur);
        NotifyNext();
      } else {
        var isFront := |waiters| > 0 && waiters[0] == ch;
        RemoveWaiter(ch);
        if isFront && size > cur {
          NotifyNext();
        }
      }
    }
  }
}
