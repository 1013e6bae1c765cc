# Session layer and plugin registry

A Dafny model of the PKCS #11 session layer under `kms/pkcs11` and of the object registry under `plugin`, with proofs about every interleaving of concurrent callers.

Each concurrent component is a state machine: threads with program counters, mutex owners, channels as open, closed or awaiting a rendezvous, and one event for every critical section, atomic access, blocking operation or call into a library. `Exec` runs a sequence of events; a theorem about `Exec(Init(), es)` is a theorem about every reachable state. Beside the state machines stand classes that carry out the statements of the source one after the other, on fields they change in place. Each section of such a class is proved equal to one event, and each whole method, with other threads running between its statements, is proved to be a run of the state machine. Its contract names the steps its own thread takes, in order, what it returns, and the statement at which it waits if the other threads stop before it is done.

| file | subject |
|---|---|
| `Common.dfy`, `BoundedCounter.dfy` | shared values; the atomic bounded counter with a closed flag |
| `Semaphore.dfy` | `semaphore.go`: the critical sections as functions and as a class |
| `SemaphoreProtocol.dfy`, `SemaphoreSafety.dfy` | concurrent callers: conservation, drain, stuck states, wakeups, order of grants |
| `SemaphoreRefinement.dfy` | the semaphore implements the atomic counter |
| `SemaphoreCode.dfy` | the code of Acquire, Release and Close under interference |
| `SemaphoreTraces.dfy` | runs in which the code departs from its intent |
| `PoolProtocol.dfy`, `PoolInvariant.dfy`, `PoolSteps.dfy` | `pool.go` and `handle.go` as a state machine and its invariant |
| `PoolSafety.dfy` | reference counts, one pool per key, sharing, login |
| `PoolBound.dfy`, `PoolAccounts.dfy` | the session limit, and exactly when a session escapes it |
| `PoolMoves.dfy`, `PoolTraces.dfy` | single steps for building runs, and a run that exceeds the session limit |
| `PoolRuns.dfy`, `PoolCode.dfy` | the code of Login, Drop, Get and Handle.Close under interference |
| `PoolSemaphores.dfy` | the pools over real semaphores in place of counters |
| `ModuleCache.dfy` | `module.go`: class, state machine and exact counts |
| `Lifetime.dfy`, `LifetimeSteps.dfy`, `LifetimeShutters.dfy` | KMS and wrapper instances over pools and modules, and which of them shut a pool down |
| `LifetimeSafety.dfy`, `LifetimeTraces.dfy` | modules outlive pools, which instances keep a library loaded, and a run that ends at an unloaded one |
| `LifetimeReach.dfy` | exactly when a token or a call is left with an unloaded library |
| `LifetimeCode.dfy` | the code of Open, Close, SetConfig, with and Finalize under interference |
| `OnceOrCancel.dfy`, `OnceCode.dfy` | the memoised function that is retried after cancellation |
| `KeyId.dfy` | printing and splitting of key ids |
| `PluginWire.dfy` | errors and signer options across the wire |
| `PluginRegistry.dfy`, `PluginRefinement.dfy`, `PluginSafety.dfy` | the id-to-object maps and what callers can rely on |
| `PluginOwners.dfy` | which client reaches which object, and what becomes of keys |
| `PluginOwners.dfy` | which client reaches which object, and what becomes of keys |
| `PluginOwners.dfy` | which client reaches which object, and what becomes of keys |
| `PluginOwners.dfy` | which client reaches which object, and what becomes of keys |

## Where the code departs from its intent

- A waiter of the semaphore that Close woke with an error and whose context is done calls Release without a token (`semaphore.go:117-121`). `SemaphoreSafety.ConservedIffNoSpuriousRelease` says that tokens are conserved exactly when that never happens; `CloseReturnsWithTokenOutstanding`, `RightfulReleasePanics` and `WithdrawalWrapsAround` are runs that show what follows when it does.
- Close sends on unbuffered channels while it holds `mu` (`semaphore.go:63-67`). `StuckCharacterised` says exactly when it blocks for ever, and `CloseDeadlocks` is a run that gets there.
- The session limit can be exceeded after a Drop whose context ended before the tokens were back, although every call into the library succeeded (`PoolTraces.FailedDrainExceedsLimit`). `PoolBound.SessionsBounded` bounds the excess by the sessions that leaked, with no hypothesis, and `PoolAccounts.AccountedIffNeverStranded` names the four guards: over a run no session ever leaks if and only if none of them is met. A drain that fails while no token is out meets none.
- A call can reach a library that was finalized (`LifetimeTraces.SessionOnFinalizedModule`): `with` only logs the error of a Drop that did not drain (`wrapper.go:271-275`), and Finalize unloads the module. `LifetimeReach.CallsReachIffNeverStrayed` says exactly when, by the guards of three events: over a run every call reaches a loaded library if and only if the last Ref of a library is never settled while a thread that has a token is about to call it, no token of a pool whose library has no Refs is taken, and no open handle of such a pool is closed. `LifetimeReach.TokensReachIffNeverUnloaded` says the same of all tokens that are out. A call goes astray only on a pool that was removed undrained and whose last Drop was a wrapper's (`StrayCallWasWrappers`); one whose last Drop was a KMS Close keeps its module until it is drained (`LifetimeSafety.KmsKeepsUndrainedModule`).
- The limit is read from MaxRwSessionCount although the switch is on MaxSessionCount (`pool.go:124-130`); the model does the same.
- `pool.Scope` joins the error of Handle.Close into a variable that is not its result (`pool.go:290-303`), so nothing is claimed about close errors there.
- Close, Init and Finalize of a plugin client report ErrPluginShutdown for a call that succeeded if the plugin's context is done (`kms_client.go:75-80`, `wrapper_client.go:121-143`); `PluginWire.SuccessShownExactly` says that these are the only such calls among those whose answer arrives.
- The wrapper server does not turn ErrFunctionNotImplemented into a status, so the sentinel that the client is prepared to restore never arrives (`PluginWire.WrapperSentinelLost`).
- onceOrCancel keeps every error that is not context.Canceled, an expired deadline included.

## Assumptions

- A mutex protects its critical section, atomics are sequentially consistent, and channels behave as in the Go memory model.
- The PKCS #11 library is a source of outcomes: OpenSession, Login, Logout, CloseSession, CloseAllSessions, Initialize succeed or fail freely, except that logging in to a token that is logged in fails, and that closing the last session of a token logs it out (section 5.6 of the PKCS #11 Cryptographic Token Interface Base Specification, version 2.40).
- The library does not give a session the handle of an earlier one. After a failed drain, a late Handle.Close would otherwise close the session of another pool.
- Reference counts of pools stay below 2^32 - 1; `PoolSafety.NoWrapBelowRange` says that fewer than 2^32 - 1 undropped references suffice. The theorems about runs of pools and instances carry `!wrapped`.
- The theorems about pools and instances are about pools with an atomic counter for a semaphore. `PoolSemaphores.PoolsOverSemaphores` says that every run over real semaphores in which no spurious release happens is a run of these; what is assumed is that none happens.
- Finalize of a wrapper is not called while calls use it, and a KMS is opened once, as the interfaces demand. UUIDs are new.
- The digest of a PIN is injective in the PIN.

## Model

| member | source | states |
|---|---|---|
| Semaphore.SingleGrantSuffices | kms/pkcs11/internal/session/semaphore.go:44-52 | after a Release that finds its queue waiting only for capacity, one notify is enough: a second changes nothing |
| Semaphore.SemaphoreCloser.constructor | kms/pkcs11/internal/session/semaphore.go:23-31 | a semaphore starts with all its tokens free, open and without waiters |
| Semaphore.SemaphoreCloser.NotifyNext | kms/pkcs11/internal/session/semaphore.go:128-137 | exactly one token is granted, to the first waiter, if somebody waits and `cur` is below `size`; otherwise nothing changes |
| Semaphore.SemaphoreCloser.TryAcquireInternal | kms/pkcs11/internal/session/semaphore.go:79-96 | a done context is refused before anything is looked at and nothing changes; a free token is taken only past an empty queue; everybody else is queued last |
| Semaphore.SemaphoreCloser.TryAcquire | kms/pkcs11/internal/session/semaphore.go:34-41 | exactly a closed semaphore refuses, and who is refused takes nothing |
| Semaphore.SemaphoreCloser.TryRelease | kms/pkcs11/internal/session/semaphore.go:44-52 | the panic happens exactly at zero; otherwise one token comes back, and the first waiter inherits it exactly if `cur` was not above `size` |
| Semaphore.SemaphoreCloser.RemoveWaiter | kms/pkcs11/internal/session/semaphore.go:110 | exactly this waiter leaves the queue, the others keep their order |
| Semaphore.SemaphoreCloser.WithdrawWaiter | kms/pkcs11/internal/session/semaphore.go:99-115 | a cancelled waiter gives back a grant it had already received, or only leaves the queue |
| SemaphoreSafety.StepValid | kms/pkcs11/internal/session/semaphore.go:34-137 | every event of any caller keeps the whole invariant: queue and channels, accounting, no lost wakeup, capacity, closing, order |
| SemaphoreSafety.ConservedIffNoSpuriousRelease | kms/pkcs11/internal/session/semaphore.go:34-137 | in every reachable state `cur` is tokens held plus tokens granted, without panic or wrap-around, if and only if no waiter woken with Close's error called Release |
| SemaphoreSafety.TokensConserved | kms/pkcs11/internal/session/semaphore.go:117-121 | a run in which no error wakeup sees its context done conserves tokens throughout and never exceeds the limit |
| SemaphoreSafety.DrainedExactly | kms/pkcs11/internal/session/semaphore.go:56-97 | when Close has returned nil the tokens of others are at most the spurious releases; without those there are none, nor grants or waiters |
| SemaphoreSafety.NoAcquireAfterDrain | kms/pkcs11/internal/session/semaphore.go:56-97 | after Close returned nil nobody else ever holds a token again, however the run goes on |
| SemaphoreSafety.NobodyWaitsForFreeCapacity | kms/pkcs11/internal/session/semaphore.go:88-137 | a non-empty queue means exhausted capacity, also across Close; a waiter that leaves without a grant only removes itself, so its notify is never effective |
| SemaphoreSafety.AcquireDecides | kms/pkcs11/internal/session/semaphore.go:34-97 | a call of Acquire on a closed semaphore or with a done context is refused and takes nothing; it takes a free token at once exactly if nobody waits, and otherwise queues last |
| SemaphoreSafety.CloseDecides | kms/pkcs11/internal/session/semaphore.go:69-97 | at the end of its loop Close leaves the semaphore closed, of size one and unlocked, whatever its own attempt comes to: a done context takes nothing, another drains at once exactly if `cur` is zero, and otherwise queues |
| SemaphoreSafety.WakeupDecides | kms/pkcs11/internal/session/semaphore.go:117-124 | a woken caller whose context is done goes on to Release and never keeps a token; another keeps its token, or returns the error it was woken with |
| SemaphoreSafety.GrantsFollowArrivals | kms/pkcs11/internal/session/semaphore.go:94-137 | grants are a subsequence of the arrivals, and whoever still waits arrived after everybody granted so far |
| SemaphoreSafety.HolderStepsUnlessStuck | kms/pkcs11/internal/session/semaphore.go:63-67 | the holder of `mu` has an enabled step exactly unless the waiter it addresses took the done case |
| SemaphoreSafety.StuckCharacterised | kms/pkcs11/internal/session/semaphore.go:63-67 | the holder of `mu` can never step again, whatever happens, if and only if it is Close at its send and the addressed waiter sits at line 100 |
| SemaphoreSafety.CloseCompletes | kms/pkcs11/internal/session/semaphore.go:63-97 | if no queued waiter took the done case, Close's own events run to the release of `mu` with the semaphore closed |
| SemaphoreRefinement.StepRefines | kms/pkcs11/internal/session/semaphore.go:79-137 | each event is one action of the atomic counter or leaves it unchanged |
| SemaphoreRefinement.SemaphoreRefinesCounter | kms/pkcs11/internal/session/semaphore.go:34-137 | every run without spurious release is, seen from outside, a run of the atomic bounded counter with a closed flag |
| BoundedCounter.PromiseKept | kms/pkcs11/internal/session/semaphore.go:10-22 | the counter never exceeds its limit, closing is final, and once drained it stays without holders |
| SemaphoreCode.Callers.Acquire | kms/pkcs11/internal/session/semaphore.go:34-126 | the run makes this one call; it returns nil with a token, the closed error once a Close has begun, or the context's error once its context is done, both without a token; a caller whose context is done when it calls, or that calls a closed semaphore, never gets a token and changes nothing; left alone its result is determined; without a result somebody panicked, or nobody else is left to run and the caller waits for its first lock or cannot take a step |
| SemaphoreCode.BlockedExactly | kms/pkcs11/internal/session/semaphore.go:63-126 | a caller inside a call has no enabled step exactly if it waits in the select with neither case ready, for a taken `mu`, or to send to a waiter that is not in the select |
| SemaphoreCode.Callers.AwaitReady | kms/pkcs11/internal/session/semaphore.go:98-125 | the select ends with a token, with the closed error or with the error of a done context, and for a context that was done before only with that error; without a result somebody panicked or the caller cannot take a step |
| SemaphoreCode.Callers.Withdrawing | kms/pkcs11/internal/session/semaphore.go:99-115 | a caller that took the done case gets `mu` as soon as it is free and returns the context's error without a token |
| SemaphoreCode.Callers.AfterWakeup | kms/pkcs11/internal/session/semaphore.go:117-124 | a woken caller whose context is not done returns what it received; one whose context is done releases as soon as `mu` is free and returns the context's error |
| SemaphoreCode.Callers.Release | kms/pkcs11/internal/session/semaphore.go:44-52 | the run ends with the release, which panics exactly at zero; it is put off only by a taken `mu` or the panic of another caller |
| SemaphoreCode.Callers.SendAll | kms/pkcs11/internal/session/semaphore.go:63-67 | Close's loop ends with every queued waiter woken, or waits with `mu` held for the first one that is not in its select |
| SemaphoreCode.Callers.Close | kms/pkcs11/internal/session/semaphore.go:56-77 | the run makes this one call; it returns nil with everything drained, the closed error, or the context's error, and the semaphore is closed however it returns; with a done context it never drains; left alone its result is determined; without a result somebody panicked, or nobody else is left to run and the caller waits for its first lock, for a receiver or cannot take a step |
| SemaphoreTraces.CloseReturnsWithTokenOutstanding | kms/pkcs11/internal/session/semaphore.go:117-121 | a run in which Close returns nil while another caller holds its token |
| SemaphoreTraces.RightfulReleasePanics | kms/pkcs11/internal/session/semaphore.go:117-121 | a run in which a caller that holds a token panics on releasing it |
| SemaphoreTraces.WithdrawalWrapsAround | kms/pkcs11/internal/session/semaphore.go:104-107 | a run in which the unguarded decrement wraps around |
| SemaphoreTraces.CloseDeadlocks | kms/pkcs11/internal/session/semaphore.go:63-67 | a run that ends with Close blocked for ever while it holds `mu` |
| SemaphoreTraces.CounterExceedsSize | kms/pkcs11/internal/session/semaphore.go:72-76 | while Close drains, `cur` can exceed the shrunken `size` |
| PoolSteps.RegistryStep | kms/pkcs11/internal/session/pool.go:79-287 | every event keeps workers, stages, cache, callers, references and counts as they should be |
| PoolSteps.TokensStep | kms/pkcs11/internal/session/pool.go:191-219 | every event keeps each token with the one thread or handle that has it |
| PoolSteps.SessionsStep | kms/pkcs11/internal/session/pool.go:168-256 | every event keeps the persistent session of each pool open and logged in from Login to Logout |
| PoolSteps.SessionsClose | kms/pkcs11/internal/session/pool.go:216-219 | closing a session that is no pool's own never logs a pool out |
| PoolSteps.ExecValid | kms/pkcs11/internal/session/pool.go:79-287 | the invariant holds in every state of every run |
| PoolSafety.RefcountExact | kms/pkcs11/internal/session/pool.go:262-287 | for a pool whose login succeeded the count is undropped PoolRefs plus Drops before their decrement, and decRefs never finds zero |
| PoolSafety.NoWrapBelowRange | kms/pkcs11/internal/session/pool.go:262-272 | the count does not pass the range of uint32 while fewer than 2^32-1 references are out |
| PoolSafety.ZeroIsFinal | kms/pkcs11/internal/session/pool.go:224-232 | a count of zero stays zero in every later state, and exactly one Drop performs the shutdown |
| PoolSafety.OnePoolPerKey | kms/pkcs11/internal/session/pool.go:150-166 | a pool is cached under its key exactly from insertion until it removes itself, a dead pool is not cached, every delete removes the deleter's own pool, and no channel is closed twice |
| PoolSafety.InsertsExactly | kms/pkcs11/internal/session/pool.go:124-153 | a key without a pool gets a new one with this key, module, PIN and one reference, unless the token bounds its sessions to fewer than two; the limit is MaxRwSessionCount if MaxSessionCount is neither unknown nor unbounded, and that of a uint otherwise; one session is kept back |
| PoolSafety.LoginNeverRevisits | kms/pkcs11/internal/session/pool.go:89-122 | each retry of Login finds a pool newer than all it saw, or none |
| PoolSafety.LoginSharesLivePools | kms/pkcs11/internal/session/pool.go:98-121 | a PoolRef is returned only to a live pool for the caller's key and PIN that has not begun to shut down |
| PoolSafety.UndroppedKeepsLogin | kms/pkcs11/internal/session/pool.go:168-185 | while a PoolRef is undropped its pool is cached and open, its persistent session is open and the token logged in |
| PoolSafety.LogoutOnLoggedInSession | kms/pkcs11/internal/session/pool.go:244-256 | Logout runs only on a persistent session that was set, is open and logged in |
| PoolSafety.ShutdownEmptiesToken | kms/pkcs11/internal/session/pool.go:254-255 | if they succeed, Logout ends the login of this token only, and CloseAllSessions leaves this token without sessions or login and all other sessions open |
| PoolSafety.LastSessionLogsOut | kms/pkcs11/internal/session/pool.go:178-219 | CloseSession ends the login of the token exactly if it closes the last session there |
| PoolSafety.ReleaseHoldsToken | kms/pkcs11/internal/session/pool.go:191-219 | whoever reaches Release still has its token, and nobody else has it: no token is given back twice |
| PoolSafety.ExecEvolves | kms/pkcs11/internal/session/pool.go:24-49 | live, dead, removed and zero are final, and a pool keeps its key, module and PIN |
| PoolBound.SessionsBounded | kms/pkcs11/internal/session/pool.go:124-146 | in every reachable state the open sessions of a key are at most the limit of its cached pool plus those that leaked |
| PoolAccounts.StrandsExactly | kms/pkcs11/internal/session/pool.go:155-256 | in a state that accounts for every open session, an event leaves one unaccounted for if and only if it deletes a pool that has an open session, gives a token back whose session is open, fails to close the session of a rollback, or opens a session under a token of a deleted pool |
| PoolAccounts.AccountedIffNeverStranded | kms/pkcs11/internal/session/pool.go:155-256 | over a run no open session is ever unaccounted for if and only if none of these four guards is ever met |
| PoolAccounts.SessionLimitKept | kms/pkcs11/internal/session/pool.go:124-219 | as long as none of them is met, the open sessions of a key stay within the limit of its cached pool, drains that fail included |
| PoolAccounts.CleanRunsStrandNothing | kms/pkcs11/internal/session/pool.go:216-256 | if sessions close when asked and drains succeed, none of them is met |
| PoolTraces.FailedDrainExceedsLimit | kms/pkcs11/internal/session/pool.go:244-256 | a run with a failed drain in which three sessions are open on a token whose pools allow two |
| PoolCode.Pools.Find | kms/pkcs11/internal/session/pool.go:89-153 | the section under the cache lock finds the pool of the key or inserts a new one, or refuses a limit below two |
| PoolCode.Pools.Load | kms/pkcs11/internal/session/pool.go:264 | the load of the count, and what its zero leads to |
| PoolCode.Pools.SwapInc | kms/pkcs11/internal/session/pool.go:268-270 | the compare-and-swap adds one reference exactly if the count is unchanged |
| PoolCode.Pools.IncRefs | kms/pkcs11/internal/session/pool.go:262-272 | under any interference the loop ends with one new reference for the caller's key and PIN, or at zero; without interference a positive count gives the reference |
| PoolCode.Pools.AwaitPool | kms/pkcs11/internal/session/pool.go:98-119 | the selects end with a live pool, a dead pool or the end of the context; a patient caller gets to a live pool of its PIN, and fails only on a pool of another PIN or when the others have stopped |
| PoolCode.Pools.SetUp | kms/pkcs11/internal/session/pool.go:155-185 | setting up a pool takes OpenSession, Login and on failure CloseSession, removal and the close of dead, in this order; it ends with a granted reference exactly if the login succeeded, which it does exactly if the library lets it and nobody is logged in to the token at that moment, and otherwise with the pool removed and dead |
| PoolCode.Pools.LoginPool | kms/pkcs11/internal/session/pool.go:79-186 | Login terminates and is a run of the protocol in which its thread makes this one call; it returns an error or an undropped reference to a live pool for its key and PIN; without interference it returns the reference if a live pool of the PIN can be shared or a new one set up; under any interference a patient caller fails only if the token allows too few sessions, a live pool has another PIN, its own set-up failed, or the others have stopped |
| PoolCode.Pools.DecRefs | kms/pkcs11/internal/session/pool.go:277-287 | the last step of the loop takes exactly one reference off, or finds none; the caller that takes the last one goes on to the shutdown, every other returns |
| PoolCode.Pools.Shutdown | kms/pkcs11/internal/session/pool.go:234-256 | the worker closes and drains the semaphore, logs out, closes all sessions, removes the pool and closes dead, exactly these steps in this order whatever fails; it reports no error exactly if the drain, Logout and CloseAllSessions succeeded; a patient one drains unless the others have stopped |
| PoolCode.Pools.CloseSema | kms/pkcs11/internal/session/pool.go:245-248 | the pool is drained exactly if the tokens come back before the context ends |
| PoolCode.Pools.Drop | kms/pkcs11/internal/session/pool.go:224-257 | Drop is a run of the protocol in which its thread makes this one call: it takes one reference off, and returns, or that was the last and it performs the shutdown and returns its result; a second Drop of the same reference is an error and changes nothing |
| PoolCode.Pools.Get | kms/pkcs11/internal/session/pool.go:191-212 | Get acquires, then opens a session, and gives the token back exactly if that failed: these steps of its thread and no others; only a closed semaphore refuses it at once; it returns a handle exactly if it got a token and the session opened; a patient caller takes a free token, and waits for one until the semaphore is closed or the others have stopped; the handle is open, of this pool, with a token the pool counts |
| PoolCode.Pools.CloseHandle | kms/pkcs11/internal/session/handle.go:25-30 | the first Close marks the handle, closes the session and gives the token back whether or not that succeeded, exactly these steps in this order; a second one changes nothing |
| PoolSemaphores.StepSound | kms/pkcs11/internal/session/pool.go:191-248 | every step of a pool over its real semaphore, inside Acquire, Release and Close too, is the pool steps it stands for, with the counter the view of the semaphore |
| PoolSemaphores.PoolsOverSemaphores | kms/pkcs11/internal/session/pool.go:133-256 | every run of pools over real semaphores without spurious release is a run of pools over atomic counters, each counter at all times the view of its semaphore |
| ModuleCache.OpenValid | kms/pkcs11/internal/module/module.go:67-95 | Open succeeds exactly if the path is cached or its library loads and initialises; it then returns a new Ref to the cached library, or to a new one, and keeps the counts exact; otherwise it changes nothing |
| ModuleCache.SettleValid | kms/pkcs11/internal/module/module.go:106-125 | the decrement keeps the counts exact, and the last one unloads the library once |
| ModuleCache.Registry.OpenPath | kms/pkcs11/internal/module/module.go:67-95 | the code of Open succeeds in exactly these cases and leaves exactly these contents |
| ModuleCache.Registry.Drop | kms/pkcs11/internal/module/module.go:101-125 | a first Drop gives back exactly this Ref, takes one off the count of its library and unloads it exactly at the last; a repeated one is an error and changes nothing |
| ModuleCache.StepValid | kms/pkcs11/internal/module/module.go:67-125 | every event of concurrent callers keeps the counts exact and each dropped Ref with one thread that settles it |
| ModuleCache.RefcountExact | kms/pkcs11/internal/module/module.go:67-125 | over any interleaving the count is the Refs not accounted as dropped, a path is cached exactly while it is positive, and Finalize and Destroy run exactly once, at zero |
| LifetimeSteps.CachedPoolModuleAlive | kms/pkcs11/pkcs11.go:110-140 | somebody who answers for a cached pool holds a Ref to the pool's own module |
| LifetimeSteps.SharedPoolModule | kms/pkcs11/internal/session/pool.go:87-121 | the pool a caller of Login comes to share has the caller's own module |
| LifetimeSteps.StepValid | kms/pkcs11/wrapper.go:186-275 | every event of instances, pools and module cache keeps the joint invariant |
| LifetimeSafety.ModuleOutlivesPool | kms/pkcs11/pkcs11.go:110-140 | in every reachable state the module of every cached pool is the one in the module cache, referenced and not finalized, even after the pool's creator dropped its Ref |
| LifetimeReach.UnloadsExactly | kms/pkcs11/internal/module/module.go:101-125 | in a state in which every token that is out has a loaded library, an event leaves one without if and only if it settles the last Ref of a library while a token of one of its pools is out, or takes a token of a pool whose library has no Refs |
| LifetimeReach.TokensReachIffNeverUnloaded | kms/pkcs11/wrapper.go:222-275 | over a run every token that is out always has a loaded library if and only if no event meets these guards |
| LifetimeReach.StraysExactly | kms/pkcs11/internal/session/pool.go:168-256 | in a state in which every call that is about to be made reaches a loaded library, an event leads one astray if and only if it settles the last Ref while a thread with a token is about to call, or takes a token or closes an open handle of a pool whose library has no Refs |
| LifetimeReach.CallsReachIffNeverStrayed | kms/pkcs11/wrapper.go:222-275 | over a run every call of Login, Logout or a session always reaches a loaded library if and only if no event meets these guards |
| LifetimeReach.TokensSuffice | kms/pkcs11/internal/session/pool.go:191-256 | in a reachable state in which every token has a loaded library, so has every call |
| LifetimeReach.StrayCallWasWrappers | kms/pkcs11/wrapper.go:265-275 | a call that reaches an unloaded library is one on a pool that was removed undrained and whose last Drop was a wrapper's |
| LifetimeSafety.KmsKeepsUndrainedModule | kms/pkcs11/pkcs11.go:133-140 | if the last Drop of a pool was a KMS Close, its module stays loaded until the pool is drained |
| LifetimeTraces.SessionOnFinalizedModule | kms/pkcs11/wrapper.go:265-275 | a run in which a thread is about to open a session on a library that was finalized, after a wrapper failed to drain the pool |
| LifetimeShutters.ShutStepValid | kms/pkcs11/pkcs11.go:133-140 | every event keeps the instance that shut each pool down, and a KMS that did drops its module only if the pool was drained |
| LifetimeSafety.OpeningReachesLiveModule | kms/pkcs11/pkcs11.go:110-119 | GetToken reaches a loaded library |
| LifetimeSafety.LogsInAsConfigured | kms/pkcs11/pkcs11.go:119 | Open and with log in through the module of their own Ref, with the slot, PIN and token info they were given |
| LifetimeSafety.FailedCloseKeepsModule | kms/pkcs11/pkcs11.go:133-140 | Close goes on to drop the module exactly if the pool's Drop succeeded; otherwise the module of its pool stays loaded in every later state |
| LifetimeCode.Instances.OpenKMS | kms/pkcs11/pkcs11.go:110-131 | if the module opens, which it does exactly if it is cached or loads, Open ends as an open KMS that holds its module Ref and its PoolRef exactly if GetToken and Login succeed, otherwise with the Ref settled; if it does not open nothing changes; its steps are exactly these, and it is held up only while Login has not returned |
| LifetimeCode.Instances.CloseKMS | kms/pkcs11/pkcs11.go:133-140 | Close drops the pool, then, only if that succeeded, marks and settles the module Ref, exactly in this order; it is held up only while Drop has not returned |
| LifetimeCode.Instances.SetConfig | kms/pkcs11/wrapper.go:186-216 | the wrapper ends configured and holding its module Ref exactly if the module opens, which it does exactly if it is cached or loads, and the token is found; without the token the Ref is settled, without the module nothing changes |
| LifetimeCode.Instances.With | kms/pkcs11/wrapper.go:265-275 | with logs in, runs its callback exactly if that succeeded, and then drops the PoolRef, in this order; it is held up only by Login, its callback or Drop |
| LifetimeCode.Instances.DropPool | kms/pkcs11/wrapper.go:271-275 | the deferred Drop ends the call when it returns, whether or not it succeeded, and drops nothing else |
| LifetimeCode.Instances.Finalize | kms/pkcs11/wrapper.go:222-224 | Finalize marks and settles the module Ref and does nothing else |
| OnceOrCancel.StepValid | kms/pkcs11/pkcs11.go:446-469 | every load, store, lock and call keeps the invariant |
| OnceOrCancel.CallsNeverOverlap | kms/pkcs11/pkcs11.go:456-464 | at most one caller is inside f |
| OnceOrCancel.ResultIsFinal | kms/pkcs11/pkcs11.go:452-466 | after the first result that is not a cancellation f is never run again and the stored result never written again |
| OnceOrCancel.ReturnsProducedPair | kms/pkcs11/pkcs11.go:451-467 | a caller returns the pair its own call of f produced or the final one, so it never sees the cancellation of another |
| OnceOrCancel.ReturnsLoggedPair | kms/pkcs11/pkcs11.go:451-467 | every returned pair is one that f produced, never a mixture of two |
| OnceOrCancel.FilledIffResult | kms/pkcs11/pkcs11.go:464-466 | done is set exactly when f returned something other than a cancellation and its caller recorded that |
| OnceCode.Once.CallF | kms/pkcs11/pkcs11.go:464-466 | the call and its three stores are a run of the protocol |
| OnceCode.Once.Invoke | kms/pkcs11/pkcs11.go:451-468 | one call of the closure, under any interference, is a run of the protocol in which its thread makes this one call, and returns its own result or the stored one; left alone it returns a stored result without calling f, or stores and returns what f returned; without a result nobody else is left to run and the lock is taken |
| KeyId.HexHasNoColon | kms/pkcs11/wrapper.go:290-293 | what hex decoding accepts has no colon |
| KeyId.DigitAccepts | kms/pkcs11/wrapper.go:290-293 | a digit is one of 0-9, a-f and A-F |
| KeyId.HexAccepts | kms/pkcs11/wrapper.go:290-293 | what is decoded are exactly the strings of an even number of digits |
| KeyId.HexRoundTrip | kms/pkcs11/wrapper.go:290-293 | decoding turns an encoded id back |
| KeyId.LastColon | kms/pkcs11/wrapper.go:282-285 | the position of the last colon, or -1 exactly if there is none |
| KeyId.SplitPrint | kms/pkcs11/wrapper.go:230-232 | a printed key id splits into its label and id if and only if the id has no colon; the label may have any |
| KeyId.PrintSplit | kms/pkcs11/wrapper.go:280-288 | splitting fails exactly without a colon and otherwise loses nothing |
| KeyId.EncryptsUnderOwnKey | kms/pkcs11/wrapper.go:234-250 | Encrypt asks the token for exactly the configured label and the decoded id, with the plaintext, and the blob is the answer under label:id; an id that is not hexadecimal is refused |
| KeyId.DecryptsUnderNamedKey | kms/pkcs11/wrapper.go:252-300 | Decrypt asks the token for exactly the label and decoded id that the blob names, or the configured ones if it names none, with the iv before the ciphertext |
| KeyId.NoKeyWithoutColon | kms/pkcs11/wrapper.go:281-285 | a blob whose key id has no colon is refused |
| KeyId.BlobNamesItsKey | kms/pkcs11/wrapper.go:234-293 | the id in every blob Encrypt makes resolves, in any wrapper, to the key that encrypted it |
| KeyId.DecryptEncrypt | kms/pkcs11/wrapper.go:234-263 | what Encrypt made, Decrypt of any wrapper on the token turns back, if the cipher does |
| KeyId.NoBlobForBadId | kms/pkcs11/wrapper.go:290-293 | an id with a colon, which would name another key, is refused before a blob exists |
| PluginWire.SentinelsSurvive | plugin/kms_client.go:40-54 | each sentinel of a KMS is seen exactly when the object returned it or an error carrying its code; ErrNoInstance exactly for a missing object or such an error |
| PluginWire.SuccessShownExactly | plugin/kms_client.go:75-80 | of the answers that arrive, a success is reported as such except by Close, Init and Finalize of a plugin that shuts down, and a failure is never reported as success |
| PluginWire.ShutdownShownExactly | plugin/kms_client.go:40-54 | an error with another status is shown as it is exactly if the plugin does not shut down, and as ErrPluginShutdown exactly if it does; that error stands for nothing else but a success of Close, Init and Finalize |
| PluginWire.TextSurvives | plugin/kms_client.go:40-54 | an ordinary error keeps its text |
| PluginWire.WrapperSentinelLost | plugin/wrapper_client.go:31-45 | the wrapper's sentinel arrives as text, although the client could restore it from a status |
| PluginWire.HashRoundTrip | plugin/kms_client.go:168-170 | a hash survives int32 exactly if it fits or is sign-extended |
| PluginWire.OptsRoundTrip | plugin/kms_server.go:188-205 | signer options arrive as sent exactly if their type is supported and their numbers fit; nil arrives as the zero hash |
| PluginWire.ProtoRoundTrip | plugin/kms_client.go:137-160 | what the server accepts a client sends the same way again |
| PluginRegistry.Server.Service | plugin/kms_server.go:50-59 | a service is found exactly under its id |
| PluginRegistry.Server.Key | plugin/kms_server.go:61-70 | a key is found exactly under its id |
| PluginRegistry.Server.Remove | plugin/wrapper_server.go:164-174 | Close and Finalize take the object out of the map and leave the other maps alone |
| PluginRegistry.RemoteClient.Configure | plugin/wrapper_client.go:47-71 | the id is set once, by the first call that succeeds, and kept by every other |
| PluginRegistry.RemoteClient.Shut | plugin/kms_client.go:75-80 | Close reports success exactly if it succeeded and the plugin is not shutting down |
| PluginRefinement.StepValid | plugin/kms_server.go:50-151 | every event keeps ids unique, maps true to what was issued, and keys in use registered |
| PluginRefinement.StepRefines | plugin/kms_server.go:50-151 | each event through ids and maps is the same event on the objects themselves |
| PluginRefinement.RegistryRefinesDirectUse | plugin/kms_server.go:80-258 | every run is a run of direct use, in which clients hold the objects themselves: each object receives the same calls in the same order, with their options decoded from the wire, and each call has the same outcome |
| PluginRefinement.ArrivesExactly | plugin/kms_client.go:137-177 | a request that a client can send arrives as it was made if and only if its options are not nil and their numbers fit the wire |
| PluginRefinement.ObjectsReceiveExactly | plugin/kms_server.go:188-258 | over every run, objects receive exactly the requests that direct use would pass them if and only if the options of each fit |
| PluginRefinement.ReturnedCallsAreFaithful | plugin/kms_client.go:40-104 | over every run, a caller of a KMS is told success, a sentinel or the text of an ordinary error exactly if direct use of the object in the same run returned it; an invalid signature is told to callers of Verify only; only a success of Close or Init can be hidden, by ErrPluginShutdown |
| PluginSafety.DestroyedOnce | plugin/kms_server.go:102-118 | the Close or Finalize of an object is called at most once, however many callers close it |
| PluginSafety.CloseForgets | plugin/wrapper_server.go:164-174 | a Close or Finalize leaves the id unregistered |
| PluginSafety.ClosedServiceIsGone | plugin/kms_server.go:50-59 | from then on every service-level call with that id is answered ErrNoInstance |
| PluginSafety.KeysAreNeverMissing | plugin/kms_client.go:82-104 | a key that somebody refers to is never missing on the server, although cleanups of others run at any time and its service may be closed |
| PluginOwners.CalledByItsOwner | plugin/kms_server.go:50-151 | over every run an object is called by nobody but the client whose Open made it, and not before |
| PluginOwners.OpenedIsReached | plugin/kms_server.go:50-118 | a client whose Open succeeded reaches its own object with every call, unless a Close or Finalize of it was called, and then is answered that there is none |
| PluginOwners.SuccessGivesId | plugin/kms_client.go:56-73 | whoever was told that its Open succeeded has an id from then on |
| PluginOwners.MissingMeansClosed | plugin/kms_server.go:50-59 | a service is missing only for a client without an id, or whose object was closed |
| PluginOwners.SecondOpenRefused | plugin/kms_client.go:56-59 | a client that has an id is refused another Open, and nothing reaches the server |
| PluginOwners.OutcomeIsTheObjects | plugin/kms_server.go:80-151 | the outcome of a call is the error the object returned, or success, for which a new object is registered first |
| PluginOwners.ToldByCall | plugin/wrapper_client.go:121-143 | a success is told as such except to Close, Finalize and Init while the plugin shuts down, and an invalid signature exactly to Verify of a KMS |
| PluginOwners.NoKeyForgotten | plugin/kms_client.go:82-104 | over every run each registered key has a client that refers to it, is on its way to one, or has a cleanup that is yet to run and removes it |
| PluginOwners.KeyReachesItsObject | plugin/kms_server.go:61-70 | a call of a key reaches the object its client refers to, which no other key client does |

## Left out

- Cgo and the PKCS #11 library itself: calls have free outcomes over which sessions are open and which tokens are logged in.
- Liveness beyond `CloseCompletes` and the termination of the loops in the classes: no scheduler or fairness is modelled.
- SemaphoreCode.Callers.Acquire: interference is a finite list, and a wait that outlasts it is reported as no result; the same holds of Release and Close.
- PoolCode.Pools.LoginPool: interference is a finite list, and when it is used up the context ends; a wait without end is not a value of the model.
- LifetimeCode.Instances.OpenKMS: Login and Drop of a pool are steps of the pool protocol that run inside; that the code of PoolCode takes these steps is proved there.
- PluginRefinement.RegistryRefinesDirectUse: of the arguments of a request it has the signer options; data, signatures and other bytes are protobuf fields that are passed on. A status made by the transport itself is not an outcome.
- GetToken's selectors, path resolution and symbolic links: a module path is canonical and a slot is an argument.
- The error values of the pool and of the module cache beyond success or failure, and the contents of error texts except where the plugin client passes them on.
- Configuration decoding, environment variables, alias tables.
- Finding and using keys on the token: mechanisms, RSA, ECDSA, AES, ASN.1; a key operation is a function of key and data in `KeyId`.
- SHA-256 of the PIN: an injective digest.
- gRPC transport, protobuf code (including the demand that strings be UTF-8), process handling of plugins, and loggers. `runtime.AddCleanup` is an event that can happen once a key is unreachable.
- Public key export of plugins and its PKIX encoding, and the metadata service.
- Cloud wrappers, the Securosys HSM packages, envelope encryption and the AEAD wrapper: no shared protocol of the kind modelled here.
