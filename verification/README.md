# Verified model of the phase lockers and the lazy life cycle

This project models, in Dafny, the adaptive phase lockers of `static_init` and what is built on them: the
registration, initialization and finalization of lazy objects, and the register of objects to finalize at
program exit. All state of a locker is one 32-bit word: eight phase bits, a 21-bit reader field, LOCKED,
READ_WAITER and WRITE_WAITER.

`dafny verify dfyconfig.toml` checks everything.

## The modules

| files | what they are |
|---|---|
| `Phases`, `PhasedLock` | the life-cycle flags; the abstract read/write lock that carries a phase |
| `FutexProtocol` | the futex locker as a transition system: any number of clients, one step per atomic operation |
| `FutexInvariant`, `FutexPreserved` | its inductive invariant, and that every step keeps it |
| `FutexTheorems`, `FutexRefinement`, `FutexRuns` | what follows for every reachable state and every run |
| `FutexSolo` | how a call ends that nobody disturbs, when one is refused, and whom a hand-over turns to |
| `FutexMoves`, `FutexProgress`, `FutexClones` | what a step changes; that nobody is stranded in the queues; what a clone that waits does to them |
| `Words`, `LockBits`, `FutexMachine` | the 32-bit word, bit by bit; the class with the real fields whose methods are the atomic operations in the source's bit arithmetic, each proved to be the protocol's step |
| `Spinning`, `SpinMachine`, `SpinSolo` | the spinning locker, likewise |
| `UnSync` | the single-threaded locker: a specification by numbers of guards and a class over the cell |
| `LazyPolicies`, `LazyInit`, `LazyOutcomes`, `LazySequentializer` | the access policies, the phase machine of one object, what its visits come to, and the guards and entry points in imperative form |
| `Lockers`, `Tenures`, `LazyConcurrent` | both lockers seen alike, what whole tenures of the write lock publish, and the phase machine run through their guards, in every interleaving |
| `ExitDrain`, `ExitManager`, `ExitLife` | the register and its drain as a transition system, the intrusive linked list with its loop, and both together with the objects' life cycles |
| `Errands`, `ExitLocks` | a lock call followed from beginning to end, and every object with its own locker while the drain finalizes them through it |

## Assumptions

- Interleavings are sequentially consistent; one step is one atomic operation with the local computation up
  to the next one. A weak compare-exchange may fail spuriously.
- The kernel parks a thread atomically with the comparison of the word, wakes exactly as many as asked for
  or as there are, on two queues, and never wakes a thread by itself. A wake-up and the change of the
  fairness counter before it are one step.
- Spin counters are a free choice at every test.
- `how` is stable: once it answers Read for a phase it does so for every later phase, where later phases are
  those that keep INITIALIZED and do not return to the empty phase. A holder of the write lock plans only
  later phases. `LazySequentializer` proves both of the closures and the plans that the sequentializer uses.
  The spinning and the single-threaded locker need no such hypothesis.
- Ownership is as in Rust: a guard is released once, by its holder, and not while a clone of it is being made.
- Finalizers do not panic during the drain, as the comment at `src/exit_sequentializer.rs:28-30` allows.

## Where the code and its documentation disagree

The model follows the code.

- The assertion at `src/phase_locker/sync.rs:601` can fail while a write lock is converted; the protocol
  goes on as if it were not there (`FutexRuns.ConversionAssert`, `FutexRuns.ConversionAssertFails`).
- "The finalize call will wait until the init function finished" (`src/lazy_sequentializer.rs:164-166`): it
  does not, because the word still holds the empty phase (`ExitLife.InitializedButMissed`).
- The drain does not close registration when it finds the list empty (`ExitDrain.EmptyStartLeavesOpen`).
- The single-threaded locker is a RefCell only below 2^20 read guards, which `clone` does not enforce
  (`UnSync.RefinesUnlessBroken`, `UnSync.CloneBreaksExclusion`).
- A clone of a read guard that finds READER_BITS full parks and counts on being woken when readers leave, but
  the guard it clones cannot be released meanwhile. Unless somebody is about to wake readers it sleeps for
  ever, with everybody else who is parked (`FutexClones.CloneWakesIff`). READER_BITS need not mean 2^20 guards:
  while a waker has not settled, three guards suffice (`FutexClones.CloneSleepsForever`).
- REG_ALWAYS must mean that registration neither refuses nor panics (`LazyInit.ElisionSound` is the exact
  condition, `LazyInit.ElisionNeedsRegistration` the accesses that slip through).

## Model

| member | source | states |
|---|---|---|
| `FutexTheorems.MutualExclusion` | src/phase_locker/sync.rs:273-283 | In every reachable state a live write lock coexists with no other write lock, no live read lock and no woken reader; the word is then LOCKED with an empty reader field. |
| `FutexTheorems.LockedHasOneOwner` | src/phase_locker/sync.rs:273-283 | LOCKED_BIT has exactly one owner; with readers inside, that owner is a writer that announced itself, never a holder. |
| `FutexTheorems.AnnouncedWriterFate` | src/phase_locker/sync.rs:1189-1221 | A writer that announced itself becomes the owner exactly when the reader field is 0; otherwise it waits on or withdraws, leaving WRITE_WAITER set with readers inside. |
| `FutexTheorems.CreditConservation` | src/phase_locker/sync.rs:588-607 | The 21-bit reader field always equals the live read locks plus the credit wakers have not handed out; it never reaches 2^21, a woken or leaving reader finds it non-zero, and the settling subtraction leaves at least one unit. |
| `FutexTheorems.UniqueAgent` | src/phase_locker/sync.rs:327-401 | The word is unowned with a waiter bit set if and only if some client is inside `transfer_lock` handing it over, and there is only one such client. |
| `FutexTheorems.FreeIffNobody` | src/phase_locker/sync.rs:273-283 | The word is free of LOCKED, readers and waiter bits if and only if no client owns it, hands it over, has a reader unit or is cloning a guard. |
| `FutexTheorems.NoLostWakeup` | src/phase_locker/sync.rs:327-401 | While a client is parked, and none is parked in `ReadLock::clone`, the word is not free, some client that is responsible for it has a step it can take, and either the waiter bit of the parked client is set or a client that can take a step is committed to waking its class or to setting the bit again. |
| `FutexProgress.NobodyStranded` | src/phase_locker/sync.rs:327-607 | In every reachable state in which nobody is making a clone, every parked client, reader or writer, is unparked in some continuation. |
| `FutexClones.CloneWakesIff` | src/phase_locker/sync.rs:493-537 | With a client parked in `ReadLock::clone`: a parked reader is unparked in some continuation if and only if some client is about to wake readers (converting, or past the waking xor); otherwise no parked client of either class ever is, whatever anybody does. |
| `FutexClones.CloneSleepsForever` | src/phase_locker/sync.rs:497-523 | A run of five clients that ends with one read guard, its clone parked and everybody else at rest, from which the clone never wakes. |
| `FutexTheorems.Quiescence` | src/phase_locker/sync.rs:619-623 | With no guard and no operation in progress the word is the phase alone and `writer_count` is 0. |
| `FutexTheorems.NatureAgreement` | src/phase_locker/sync.rs:751-1187 | On the fast, slow, try and wake-up paths: a read or write guard is held under a phase for which `how` answers its nature, None is answered only under a phase for which `how` or `on_waiting_how` is None, and only `try_lock` refuses. |
| `FutexSolo.TryAlone` | src/phase_locker/sync.rs:752-816 | `try_lock` with nobody else moving and no spurious failure, from any word: it ends with a guard of the nature `how` gives the phase, or is told None, if the word allows that nature, and is refused if LOCKED_BIT, readers or waiters forbid it. |
| `FutexSolo.LockAlone` | src/phase_locker/sync.rs:820-927 | `lock` likewise ends with the guard or the answer on a word that allows it, whatever its spin counter says. |
| `FutexSolo.LockAloneWaits` | src/phase_locker/sync.rs:882-1035 | On any other word, once out of spins, `lock` parks as `on_waiting_how` says with the waiter bit of its class set and a writer counted, or is told None; a writer stopped by readers alone has withdrawn and leaves WRITE_WAITER. |
| `FutexSolo.CloneAlone` | src/phase_locker/sync.rs:493-537 | `clone` alone makes its guard if READER_BITS has room and parks with READ_WAITER set otherwise. |
| `FutexSolo.WokenReaderAlone` | src/phase_locker/sync.rs:1160-1187 | A woken reader keeps its unit as a guard, or gives it back and is told None, or gives it back and asks for the write lock under the word this leaves, as `how` says. |
| `FutexSolo.WokenWriterAlone` | src/phase_locker/sync.rs:1117-1153 | A woken writer sets WRITE_WAITER again if others are counted, and keeps the lock, converts it, or gives it back and is told None, as `how` says. |
| `FutexSolo.RefusedWhen` | src/phase_locker/sync.rs:770-809 | Among any other clients a `try_lock` is refused only if the word it looks at does not allow the nature that `how` gives its phase, or it lost its one strong compare-exchange to somebody. |
| `FutexTheorems.NoneArmIsDead` | src/lazy_sequentializer.rs:436-456 | A lock call whose two closures never answer None is never told None: the `unreachable_unchecked` arm is dead. |
| `FutexTheorems.ReadArmIsDead` | src/lazy_sequentializer.rs:459-478 | A lock call whose `how` never answers Read never gets a read guard. |
| `FutexPreserved.InvStep` | src/phase_locker/sync.rs:307-607 | Every step of every client, with every choice of the scheduler, the weak compare-exchange, the kernel and the callers, keeps the invariant of the protocol. |
| `FutexRefinement.Refines` | src/phase_locker/sync.rs:307-325 | Seen as a phased read/write lock every step is a stutter or exactly one acquisition, release or conversion by the stepping client, the phase landing on `on_unlock` whatever waiter bits were set meanwhile. |
| `FutexRefinement.PhaseFixedWhileRead` | src/phase_locker/sync.rs:699-705 | While any read lock lives no step changes the phase. |
| `PhasedLock.ActionKeepsExclusion` | src/phase_locker/sync.rs:697-708 | The abstract lock keeps one-writer-or-readers exclusion, fixes the phase while somebody reads, and changes it only at the release or conversion of the one writer. |
| `Phases.FlagBits` | src/lib.rs:616-638 | The flags are the bits of the source. |
| `FutexRuns.AssertsHold` | src/phase_locker/sync.rs:327-401 | Every assertion of `transfer_lock`, `wake_readers` (not converting), the waiting functions and `writer_count` holds whenever it is evaluated. |
| `FutexRuns.HandOverFrees` | src/phase_locker/sync.rs:361-370 | When `transfer_lock` unlocks for good the word is free and nobody is parked. |
| `FutexRuns.HandOverWakesOwner` | src/phase_locker/sync.rs:338-345 | When it returns after waking a writer, that writer owns LOCKED_BIT with an empty reader field. |
| `FutexRuns.HandOverLetsReadersIn` | src/phase_locker/sync.rs:588-601 | When `transfer_lock` turns to the readers, its xor leaves LOCKED_BIT and READ_WAITER clear and the reader field at 2^20 + 1, WRITE_WAITER as it was. |
| `FutexRuns.HandOverWakesReaders` | src/phase_locker/sync.rs:602-607 | The wake that follows gives each woken reader its unit, the field exceeding their number; unless 2^20 were woken no reader is parked any more, and LOCKED_BIT is set if and only if a writer has announced itself since. |
| `FutexRuns.ConversionAssert` | src/phase_locker/sync.rs:601 | While converting, the assertion on LOCKED_BIT holds if and only if no writer has announced itself. |
| `FutexRuns.ConversionAssertFails` | src/phase_locker/sync.rs:601 | A run of three clients in which that assertion fails. |
| `FutexRuns.BoundedBypass` | src/phase_locker/futex.rs:47-49 | From a `transfer_lock` call that sees READ_WAITER on, at most READ_FAIRNESS_PERIOD - 1 writers are handed the lock before readers are woken, in every run and across the wrap of the 16-bit counter. |
| `FutexSolo.HandOverTurns` | src/phase_locker/sync.rs:334-359 | A hand-over takes LOCKED_BIT for a writer if writers are announced and readers are not, or `fairness` is no multiple of READ_FAIRNESS_PERIOD; otherwise it lets the readers in. |
| `FutexSolo.WakesAWriter` | src/phase_locker/futex.rs:108-120 | Having turned to the writers it wakes one if one is parked. |
| `FutexSolo.ReadersTurn` | src/phase_locker/futex.rs:47-49 | Along every run, the counter since readers were last woken is one more than the calls of `wake_one_writer`, modulo READ_FAIRNESS_PERIOD and across the wrap: the turn of the readers comes after 31 calls and then every 32. |
| `Tenures.PublishesLastPlan` | src/phase_locker/sync.rs:143-146 | Over every stretch of a run of the futex or the spinning locker: during a tenure of the write lock the phase stays the one found; the release or conversion that ends it publishes the phase its holder set last, or the one found if it set none, read off the moves; and a read lock is left exactly by a downgrade. |
| `Words.DecodeEncode` | src/lib.rs:603-612 | The packing of phase, reader field, LOCKED, READ_WAITER and WRITE_WAITER in 32 bits loses nothing. |
| `Words.EncodeDecode` | src/lib.rs:603-612 | Conversely every 32-bit word is the packing of its fields. |
| `Words.WordBitwise` | src/lib.rs:613-615 | `^`, `&` and `|` on two words act on phase, reader field and flag bits separately. |
| `LockBits.TestsAgree` | src/phase_locker/sync.rs:539-586 | On every 32-bit word the mask tests are the predicates of the protocol on the decoded fields. |
| `LockBits.CombinedMasks` | src/phase_locker/sync.rs:541 | The combined masks, also that of `unsync.rs`, are what `|` of the constants gives. |
| `LockBits.DecodeInjective` | src/phase_locker/sync.rs:900-905 | A compare-exchange of words compares all fields. |
| `LockBits.AddUnity` | src/phase_locker/sync.rs:1099-1104 | `cur + READER_UNITY` adds one reader and carries into no other field unless the field is full. |
| `LockBits.SubUnits` | src/phase_locker/sync.rs:605 | Subtracting k units takes k readers and borrows from no other field when the field has k. |
| `LockBits.UnlockXor` | src/phase_locker/sync.rs:423-424 | The xor of a write release replaces the phase by `on_unlock` relative to `init_phase` and flips LOCKED only. |
| `LockBits.ConvertXorBits` | src/phase_locker/sync.rs:311-313 | The xor of a conversion does that and flips the lowest reader unit. |
| `LockBits.HandXorBits` | src/phase_locker/sync.rs:339 | The xor of a hand-over flips WRITE_WAITER and LOCKED only. |
| `LockBits.WakeXorBits` | src/phase_locker/sync.rs:592-595 | The xor of `wake_readers` flips READ_WAITER, READER_OVERF, the unit unless converting, and LOCKED if told to. |
| `LockBits.WakeAsserts` | src/phase_locker/sync.rs:596-601 | The three assertions of `wake_readers` hold on a word with an even reader field whose LOCKED bit is as expected. |
| `LockBits.PureWord` | src/phase_locker/sync.rs:621-623 | `Phase::from_bits` succeeds on the word of a free lock and gives its phase. |
| `FutexMachine.Futex.constructor` | src/phase_locker/sync.rs:680-682 | A new locker is a reachable start state. |
| `FutexMachine.Futex.OptimisticLock` | src/phase_locker/sync.rs:1042-1087 | The attempt on the hinted phase, in bits, is the protocol's step; it succeeds exactly when stated. |
| `FutexMachine.Futex.LockFast` | src/phase_locker/sync.rs:770-784 | The second write attempt, strong for `try_raw_lock` and weak for `raw_lock`, is the protocol's step. |
| `FutexMachine.Futex.LockFree` | src/phase_locker/sync.rs:899-913 | The slow write attempt without readers is the protocol's step. |
| `FutexMachine.Futex.LockWhileReaders` | src/phase_locker/sync.rs:914-927 | Announcing a writer while readers are inside is the protocol's step. |
| `FutexMachine.Futex.Withdrawal` | src/phase_locker/sync.rs:1200-1220 | The withdrawal of `wait_for_readers` is the protocol's step. |
| `FutexMachine.Futex.ReadLock` | src/phase_locker/sync.rs:1098-1107 | Taking a read lock is the protocol's step. |
| `FutexMachine.Futex.AnnounceWriter` | src/phase_locker/sync.rs:973-986 | Setting WRITE_WAITER is the protocol's step. |
| `FutexMachine.Futex.AnnounceReader` | src/phase_locker/sync.rs:1005-1018 | Setting READ_WAITER is the protocol's step. |
| `FutexMachine.Futex.CountIn` | src/phase_locker/futex.rs:64-65 | Counting a waiting writer; the overflow assertion and the debug assertion on WRITE_WAITER hold. |
| `FutexMachine.Futex.CountOut` | src/phase_locker/futex.rs:79-82 | Uncounting a woken writer, and whether WRITE_WAITER is to be restored; the underflow assertion holds. |
| `FutexMachine.Futex.CountOutRefused` | src/phase_locker/futex.rs:79-80 | Uncounting a writer that the kernel did not park. |
| `FutexMachine.Futex.RestoreWriterBit` | src/phase_locker/futex.rs:83 | Restoring WRITE_WAITER is the protocol's step. |
| `FutexMachine.Futex.DropReadLock` | src/phase_locker/sync.rs:479-491 | Releasing a read lock; it goes on to `transfer_lock` exactly when it was the last reader of an unlocked word with waiters. |
| `FutexMachine.Futex.DropLockAlone` | src/phase_locker/sync.rs:403-417 | The release of a write lock nobody waits for: succeeds exactly on `init_phase | LOCKED_BIT`. |
| `FutexMachine.Futex.DropLock` | src/phase_locker/sync.rs:423-430 | The release by xor; it goes on to `transfer_lock` with the new word exactly when there were waiters. |
| `FutexMachine.Futex.IntoReadLock` | src/phase_locker/sync.rs:309-319 | The conversion of a write lock; readers are woken exactly when READ_WAITER was set. |
| `FutexMachine.Futex.PreferWakeOneWriter` | src/phase_locker/sync.rs:329-334 | The entry of `transfer_lock`: its assertions hold and the fairness test is answered. |
| `FutexMachine.Futex.HandToWriter` | src/phase_locker/sync.rs:336-341 | Taking the lock for a writer to be woken: its assertions hold. |
| `FutexMachine.Futex.WakeOneWriter` | src/phase_locker/futex.rs:108-120 | Counting and waking one writer, found or not. |
| `FutexMachine.Futex.UnlockUnused` | src/phase_locker/sync.rs:361-369 | Unlocking after nobody was woken: its assertion holds, and the loop goes on exactly when new waiters came. |
| `FutexMachine.Futex.PrepareReaders` | src/phase_locker/sync.rs:588-601 | The xor before waking readers at the end of a hand-over: its three assertions hold. |
| `FutexMachine.Futex.PrepareReadersConverting` | src/phase_locker/sync.rs:588-600 | The xor before waking readers of a conversion. |
| `FutexMachine.Futex.WakeParkedReaders` | src/phase_locker/futex.rs:90-105 | Waking readers: the fairness counter restarts, and READ_WAITER is to be restored exactly when the maximum was woken. |
| `FutexMachine.Futex.RestoreReaderBit` | src/phase_locker/futex.rs:103-105 | Restoring READ_WAITER is the protocol's step. |
| `FutexMachine.Futex.SettleReaders` | src/phase_locker/sync.rs:605 | The settling subtraction is the protocol's step. |
| `FutexMachine.Futex.GetPhaseUnique` | src/phase_locker/sync.rs:620-623 | With nobody using the locker `unwrap` of `from_bits` cannot fail. |
| `Spinning.SpinRefines` | src/phase_locker/sync_spinning.rs:229-342 | Every step is a stutter or one acquisition, release or conversion of the phased lock, and none is the `unreachable!()` of `Lock::drop`. |
| `Spinning.SpinWord` | src/phase_locker/sync_spinning.rs:317-342 | The word is a function of who holds what: the field counts the live read locks below 2^21, LOCKED_BIT says that the write lock is held, and the two exclude each other. |
| `Spinning.WriteTenure` | src/phase_locker/sync_spinning.rs:245-261 | Throughout a write tenure the word is exactly `init_phase | LOCKED_BIT`. |
| `Spinning.SpinQuiescence` | src/phase_locker/sync_spinning.rs:357-361 | With no live guard the word is the phase alone. |
| `Spinning.SpinNature` | src/phase_locker/sync_spinning.rs:489-689 | Guards and refusals agree with `how`. |
| `SpinSolo.CallAlone` | src/phase_locker/sync_spinning.rs:490-690 | A call on the spinning locker with nobody else moving and no spurious failure, from any word: the guard or the answer that `how` gives the phase if the word allows it; otherwise `try_lock` is refused and `lock` spins on, leaving the word alone. |
| `SpinSolo.LoadAlone` | src/phase_locker/sync_spinning.rs:629-690 | A spinning call takes the lock as soon as the word allows it, and only then. |
| `SpinSolo.CopyAlone` | src/phase_locker/sync_spinning.rs:283-308 | A clone alone takes its unit if the reader field has room and spins on otherwise. |
| `SpinSolo.GaveUpWhen` | src/phase_locker/sync_spinning.rs:534-577 | Among other clients a `try_lock` is refused only by the word it looks at or for having lost its strong compare-exchange. |
| `SpinMachine.SpinTestsAgree` | src/phase_locker/sync_spinning.rs:317-342 | The mask tests of this locker are its predicates on the decoded fields. |
| `SpinMachine.SpinLocker.constructor` | src/phase_locker/sync_spinning.rs:418-420 | A new locker is a reachable start state. |
| `SpinMachine.SpinLocker.LockHinted` | src/phase_locker/sync_spinning.rs:495-532 | The attempt on the hinted phase is the machine's step. |
| `SpinMachine.SpinLocker.LockWrite` | src/phase_locker/sync_spinning.rs:639-652 | The write compare-exchange, strong in `try_raw_lock`, is the machine's step. |
| `SpinMachine.SpinLocker.LockRead` | src/phase_locker/sync_spinning.rs:656-679 | The read compare-exchange is the machine's step. |
| `SpinMachine.SpinLocker.CloneRead` | src/phase_locker/sync_spinning.rs:283-308 | Cloning a read lock is the machine's step. |
| `SpinMachine.SpinLocker.DropReadLock` | src/phase_locker/sync_spinning.rs:310-315 | Releasing a read lock takes one unit of a field that has one. |
| `SpinMachine.SpinLocker.DropLock` | src/phase_locker/sync_spinning.rs:245-261 | The compare-exchange of a write release always succeeds and leaves exactly `on_unlock`. |
| `SpinMachine.SpinLocker.IntoReadLock` | src/phase_locker/sync_spinning.rs:229-243 | The conversion xor is the machine's step. |
| `SpinMachine.SpinLocker.GetPhaseUnique` | src/phase_locker/sync_spinning.rs:357-361 | With no live guard `unwrap` of `from_bits` cannot fail. |
| `UnSync.TryIffLock` | src/phase_locker/unsync.rs:234-304 | On every value of the cell the tests of `try_lock` answer None if and only if `lock` would panic by an assertion or an `unwrap`: past the tests the checked addition has room. |
| `UnSync.RefinesUnlessBroken` | src/phase_locker/unsync.rs:84-152 | Every operation is the corresponding action of the phased lock if and only if it is not a write lock request made while the number of live read guards is a non-zero multiple of 2^20 whose bit 21 is clear; exactly then exclusion is lost. |
| `UnSync.FewGuardsExclude` | src/phase_locker/unsync.rs:268-304 | In every run with fewer than 2^20 simultaneous read guards exclusion holds, and `lock` panics exactly for a write request with any guard alive and for a read request with a writer or 2^20 - 1 readers. |
| `UnSync.CloneBreaksExclusion` | src/phase_locker/unsync.rs:114-119 | A run of clones that reaches 2^20 read guards, beside which a write lock is granted. |
| `UnSync.PublishesLastSet` | src/phase_locker/unsync.rs:54-99 | The same of the single-threaded locker, over every run, also where exclusion is lost. |
| `UnSync.BorrowTests` | src/phase_locker/unsync.rs:241-249 | The three mask tests of `lock` and `try_lock`, in terms of how many read guards live and whether a write guard does. |
| `UnSync.Locker.constructor` | src/phase_locker/unsync.rs:218-220 | A new cell is the phase alone. |
| `UnSync.Locker.Lock` | src/phase_locker/unsync.rs:273-304 | `lock` answers and changes the state as specified and panics exactly on the tests of the cell; the cell stays `phase | LOCKED` or `phase + 0x100 * guards` unless exclusion is lost. |
| `UnSync.Locker.TryLock` | src/phase_locker/unsync.rs:234-258 | The same of `try_lock`, which answers None exactly on its tests. |
| `UnSync.Locker.Clone` | src/phase_locker/unsync.rs:114-119 | `clone` adds a guard, or panics exactly when the cell overflows. |
| `UnSync.Locker.ToRead` | src/phase_locker/unsync.rs:84-92 | The conversion publishes the planned phase with one read guard. |
| `UnSync.Locker.DropWriteGuard` | src/phase_locker/unsync.rs:94-99 | The release of a write guard leaves exactly its planned phase. |
| `UnSync.Locker.DropReadGuard` | src/phase_locker/unsync.rs:147-152 | The release of a read guard takes one unit and does not overflow. |
| `UnSync.Locker.GetPhaseUnique` | src/phase_locker/unsync.rs:158-162 | With no live guard `unwrap` of `from_bits` cannot fail. |
| `LazyInit.VisitOk` | src/lazy_sequentializer.rs:49-136 | Whatever the closures answer or panic, a visit keeps the phase in the closed set with the call counts matching it, and never clears INITIALIZED or returns to the empty phase. |
| `LazyInit.KnownIffReached` | src/lazy_sequentializer.rs:58-136 | For every tolerance a phase is in the closed set (one registration flag once non-empty, INITIALIZED exclusive with PANICKED and SKIPED, finalization flags only with INITIALIZED, and so on) if and only if some sequence of visits reaches it. |
| `LazyInit.InitializeOnce` | src/lazy_sequentializer.rs:49-126 | For every sequence of visits initialization returns at most once, exactly if the object is INITIALIZED, and without INIT_FAILURE it is called at most once. |
| `LazyInit.NeverAgain` | src/lazy_sequentializer.rs:90-98 | Once INITIALIZED the object stays so, and neither registration nor initialization is called again. |
| `LazyInit.RegisteredOnce` | src/lazy_sequentializer.rs:66-78 | Registration is called at most once, exactly if the phase is not empty any more, and accepted at most once, exactly if the phase is REGISTERED. |
| `LazyInit.FinalizesAgain` | src/lazy_sequentializer.rs:545-568 | A second `finalize_callback` would run the finalizer again: at most once depends on the exit manager. |
| `LazyInit.ElisionSound` | src/lazy.rs:54-114 | After a normal return of an init method the soft and hard checkers, where they skip their test, answer what the full test would if and only if a failed registration is tolerated or the registration of the object was accepted, for every tolerance and every sequence of visits; the debug assertion of REG_ALWAYS holds exactly if it was accepted. |
| `LazyInit.ElisionNeedsRegistration` | src/lazy.rs:71-73 | The accesses that slip through a REG_ALWAYS checker: the first one if registration is refused, the second one if it panics. They return normally, the object is not initialized, and the elided test grants access. |
| `LazyInit.ElisionOnly` | src/lazy.rs:25-50 | For objects without finalization the plain checker's elided test is sound with no hypothesis. |
| `LazyInit.VisitOnlyOk` | src/lazy_sequentializer.rs:12-37 | The same closure properties for objects without registration. |
| `LazyOutcomes.AttemptOutcome` | src/lazy_sequentializer.rs:49-126 | From every phase that shall be initialized, without the table: which closures `lazy_initialization` calls, whether it unwinds, and where each of the eight flags comes from. |
| `LazyOutcomes.VisitMeans` | src/lazy_sequentializer.rs:66-125 | A visit calls initialization exactly once more if and only if the registration is or was accepted or a failed one is tolerated and did not panic in this visit; the object ends INITIALIZED if and only if that call returns; the caller unwinds if and only if a closure that was called panicked. |
| `LazyOutcomes.NothingToDo` | src/lazy_sequentializer.rs:404-419 | An object whose initialization has returned, or without INIT_FAILURE has been attempted, is left as it is and the caller returns. |
| `LazyOutcomes.ShallInitWhen` | src/lazy.rs:26-33 | Over every sequence of visits the policies want an initialization if and only if none has returned, or without INIT_FAILURE none was attempted. |
| `LazyOutcomes.VisitOnlyMeans` | src/lazy_sequentializer.rs:12-37 | The same of an object without registration, for both tolerances: when initialization is called and which flags its outcome leaves. |
| `LazyOutcomes.FinalizationMeans` | src/lazy_sequentializer.rs:128-136 | A finalization of an initialized object adds the flag of its outcome and changes no other; one of any other object changes nothing. |
| `LazyOutcomes.FinalFlags` | src/lazy_sequentializer.rs:131-135 | Over every sequence of visits FINALIZED is set if and only if some finalization of the initialized object returned, and FINALIZATION_PANICKED if and only if one panicked. |
| `LazyOutcomes.FinalizedWhenInitialized` | src/lazy_sequentializer.rs:128-136 | A finalizer runs only on an initialized object; run once it leaves exactly the flag of its outcome. |
| `LazyOutcomes.AccessMeans` | src/lazy.rs:98-113 | Over every sequence of visits an object is accessible if and only if its initialization has returned and, for the hard checkers, its finalizer has not been called. |
| `LazyOutcomes.PostInitMeans` | src/lazy.rs:102-113 | The test after an attempt lets in whoever the full test would, or, where it is elided, also objects whose initialization has not returned; never a finalized one for the hard checkers. |
| `LazyOutcomes.PostInitLetsIn` | src/lazy.rs:102-109 | After a normal return, with a failed registration tolerated or the registration accepted, it lets in exactly objects whose initialization has returned and, for the hard checkers, whose finalizer has not been called. |
| `LazyOutcomes.AccessOnlyMeans` | src/lazy.rs:35-38 | An object without registration is accessible if and only if its initialization has returned. |
| `LazySequentializer.Guard.Transition` | src/phase_locker/sync_spinning.rs:80-91 | The phase after unlocking is `on_panic` exactly if the closure panicked. |
| `LazySequentializer.LazyInitialization` | src/lazy_sequentializer.rs:49-126 | `lazy_initialization` calls the closures and leaves the flags that `LazyOutcomes.AttemptMeans` prescribes for every outcome, its debug assertions hold, and every phase it plans, also in between, advances from the one it found. |
| `LazySequentializer.LazyFinalization` | src/lazy_sequentializer.rs:128-136 | `lazy_finalization` adds FINALIZED if the finalizer returned and FINALIZATION_PANICKED if it panicked, and nothing else. |
| `LazySequentializer.LazyInitializationOnly` | src/lazy_sequentializer.rs:12-25 | `lazy_initialization_only` plans INITIALIZED or the failed phase, and only phases that advance. |
| `LazySequentializer.ClosuresAreStable` | src/lazy_sequentializer.rs:406-421 | The closures the sequentializer passes as `how` satisfy the stability hypothesis of the lockers. |
| `LazySequentializer.LazyObject.Init` | src/lazy_sequentializer.rs:396-425 | `init` has the effect of one visit and tells the resulting phase, or unwinds exactly if a closure panicked; `InitHow` never asks for a read lock. A sequential contract: the lock is granted under the present phase by assumption. |
| `LazySequentializer.LazyObject.InitThenReadGuard` | src/lazy_sequentializer.rs:428-457 | The same with a read guard; `ReadHow` never asks for no lock. Sequential likewise; what a lock call answers among other threads is `FutexTheorems.NoneArmIsDead`. |
| `LazySequentializer.LazyObject.InitThenWriteGuard` | src/lazy_sequentializer.rs:459-479 | The same with a write guard, asking the policy under the lock. Sequential likewise. |
| `LazySequentializer.LazyObject.TryInitThenGuard` | src/lazy_sequentializer.rs:482-539 | The try variants: the same, or nothing if the lock is busy. Sequential likewise: whether it is busy is a parameter. |
| `LazySequentializer.LazyObject.FinalizeCallback` | src/lazy_sequentializer.rs:542-569 | Finalizes exactly if initialized, leaving the flag of the outcome; its debug assertion holds on a first call. Sequential likewise; `ExitLocks` has it as a call among other threads. |
| `LazySequentializer.LazyOnly.Init` | src/lazy_sequentializer.rs:604-632 | `init` of an object without finalization. Sequential likewise. |
| `LazySequentializer.LazyOnly.InitUnique` | src/lazy_sequentializer.rs:743-762 | `init_unique` has the same effect and answer as `init`, with either kind of locker. |
| `Lockers.LiveAgrees` | src/phase_locker/sync.rs:697-747 | In every reachable state of either locker a guard is held under the present phase, for which its `how` answers its nature, and a call is told None only under a phase for which one of its closures answers None. |
| `Lockers.LiveApart` | src/phase_locker/sync.rs:697-747 | In every reachable state of either locker whoever has the write lock, or is releasing or converting it, is alone. |
| `Lockers.GoesTurns` | src/phase_locker/sync.rs:403-437 | Every step of either locker leaves the other clients where they stand; a move of the owner that sets a phase makes that its plan and any other keeps the plan; the phase changes only when a write lock ends, and to the plan; a new owner plans the phase it finds. |
| `LazyConcurrent.EffectOk` | src/lazy_sequentializer.rs:12-136 | Every section of either kind of object keeps the record in order, its phase advancing, and calls nothing again after success. |
| `LazyConcurrent.ConcurrentInitOnce` | src/lazy_sequentializer.rs:159-170 | Over any interleaving of any number of clients of the futex or the spinning locker, with panics and finalizations, for objects with registration and for plain ones: initialization returns at most once, registration is called and accepted at most once, and when nobody owns the lock the word says which happened. |
| `LazyConcurrent.ConcurrentNeverCleared` | src/lazy_sequentializer.rs:396-425 | For both kinds of object and both lockers no step of any client clears INITIALIZED or returns to the empty phase, and none calls initialization or registration after success. |
| `LazyConcurrent.OwnersFindTheirPhase` | src/lazy_sequentializer.rs:404-424 | A write guard handed to initialization satisfies `shall_init`, one handed to finalization is of an initialized object, and nobody else is inside; for both kinds and both lockers. |
| `LazyConcurrent.ReadersFindItDone` | src/lazy_sequentializer.rs:640-656 | A read guard from a read-or-initialize call is of an object that needs no initialization; with INIT_FAILURE initialization has returned; for both kinds and both lockers. |
| `LazyConcurrent.ToldWhenDone` | src/lazy_sequentializer.rs:604-627 | A call of `init` answered without a lock is told a phase that needs no initialization, for plain objects and those with registration, with either locker. |
| `ExitDrain.Conservation` | src/exit_sequentializer.rs:56-102 | At every moment each accepted object is executed, ahead in the drain, or pending, and nothing else is. |
| `ExitDrain.ExecutedExactlyOnce` | src/exit_sequentializer.rs:56-77 | A drain that finds the list non-empty ends with registration closed and every accepted object, including those accepted during the drain, executed exactly once; one that finds it empty ends with registration open and nothing executed. |
| `ExitDrain.ExecutionOrder` | src/exit_sequentializer.rs:61-76 | Execution is last in first out within each batch taken from the register, batch after batch. |
| `ExitDrain.ClosesForGood` | src/exit_sequentializer.rs:69-75 | Registration closes only when nothing is pending or ahead, and then refuses for ever. |
| `ExitDrain.EmptyStartLeavesOpen` | src/exit_sequentializer.rs:59-61 | After a drain that starts empty an object is still accepted, and never executed. |
| `ExitDrain.DrainTerminates` | src/exit_sequentializer.rs:56-77 | With n objects no run is longer than 4n + 4 moves, whatever registers meanwhile, and until the drain is finished it has a move. |
| `ExitManager.ExitRegister.FinalizeAtExit` | src/exit_sequentializer.rs:81-102 | Registration links the object in front exactly if registration is open; the assertion against double registration holds. |
| `ExitManager.ExitRegister.TakeNextOf` | src/exit_sequentializer.rs:257-259 | Unlinks the current node and yields the rest of its chain. |
| `ExitManager.ExitRegister.RefillList` | src/exit_sequentializer.rs:69-75 | Closes registration exactly if nothing is pending, and takes the pending list. |
| `ExitManager.ExitRegister.ExecuteAtExit` | src/exit_sequentializer.rs:56-77 | The drain loop over the linked objects, with registrations at arbitrary moments, terminates and executes every accepted object exactly once in batch order if the list was not empty. |
| `ExitLife.FinalizedAtMostOnce` | src/exit_sequentializer.rs:250-266 | In every run of accesses and the drain a finalizer runs at most once per object, only after its initialization returned and only if its registration was accepted. |
| `ExitLife.NeverLinkedTwice` | src/exit_sequentializer.rs:92-97 | An object that asks for registration has not asked before and is in no list. |
| `ExitLife.TurnDecides` | src/lazy_sequentializer.rs:542-569 | When its turn comes an object that was not finalized before is finalized if and only if it is initialized at that moment. |
| `ExitLife.EveryoneHadATurn` | src/exit_sequentializer.rs:56-77 | After a closing drain every registered object had its finalizer run exactly once, or was not initialized at its turn; unregistered ones are not finalized. |
| `ExitLife.InitializedButMissed` | src/lazy_sequentializer.rs:164-167 | A run in which an object under initialization at its turn ends initialized, registered and never finalized. |
| `Errands.GoesFollows` | src/lazy_sequentializer.rs:542-568 | A lock call that never asks for a read lock goes through, in either locker: it comes to one write guard, or is told None, or (when trying) is refused; after the release of the guard it is over, without a second acquisition. |
| `ExitLocks.FinalizedOnceUnderLock` | src/exit_sequentializer.rs:56-102 | With a locker for every object and the drain calling `finalize_callback` as a lock call among any number of users: in every interleaving the finalizer of an object runs at most once, only after its initialization returned, and only if its registration was accepted. |
| `ExitLocks.FinalizerIsAlone` | src/lazy_sequentializer.rs:542-569 | While the finalizer can run it is the turn of its object, the object is initialized and not finalized, and no user holds a lock of it. |
| `ExitLocks.NeverLinkedTwice` | src/exit_sequentializer.rs:92-97 | An object that registers in the middle of a section has not registered before and is in no list. |
| `ExitLocks.EveryoneWasCalled` | src/exit_sequentializer.rs:56-77 | After a closing drain the finalizer of every registered object ran exactly once, or its call was told a phase that was not INITIALIZED; no other object is finalized. |

## Left out

- Weak memory orderings, real system calls and spinning delays, lock statistics, the thread ids of cyclic-initialization debugging.
- The `parking_lot_core` futex (`src/phase_locker/futex.rs:140-265`): the same shape over a library that is not shown; its fairness test is inverted, so the bypass bound does not apply to it.
- `commit_phase` and `lock_mut`: neither is called by the initialization path, and `commit_phase` would leave `init_phase` stale.
- The thread-exit registers (cxa, Windows and pthread): foreign calls.
- The proc macro, `raw_static.rs`, the generated accessors, `map`, `Debug` and `Deref`: wrappers without state of their own.
- FutexRuns.AssertsHold: does not cover the assertion of line 601 of sync.rs while converting, which is false; `FutexRuns.ConversionAssert` says exactly when it holds.
- UnSync.Locker.Lock: does not keep exclusion for 2^20 and more read guards, as the code does not; the contract says exactly when it is lost.
- UnSync.Locker.ToRead: a guard is represented by the phase it would leave, passed in by value; its field is not a field of an object.
- FutexMachine.Futex.CountIn: takes fewer than 2^32 clients, which is what its assertion against overflow rests on.
- FutexMachine.Futex.ReadLock: each method is one atomic operation; the control flow between them is that of `FutexProtocol.Step`, and plain loads have no method.
- LazySequentializer.LazyObject.TryInitThenGuard: one call with the lock at hand; interleavings are in `LazyConcurrent` and `ExitLocks`.
- LazySequentializer.LazyObject.InitThenWriteGuard: the guard it returns is dropped at once, without a further change of phase.
- LazyConcurrent.ConcurrentInitOnce: a section takes effect on the record when its holder lets go of the guard; the closures of a section run in one step of the record.
- ExitLife.FinalizedAtMostOnce: a later attempt on an object that already left the empty phase is one step; only the first attempt, which registers, is split in two.
- ExitManager.ExitRegister.ExecuteAtExit: what a finalizer does besides registering objects is in `ExitLife`, not in the linked-list class.
- FutexSolo.WokenWriterAlone: where it has to wake waiting readers or to hand the lock over, the kernel chooses and it does not end alone; those paths are `FutexRuns` and `FutexProgress`.
- FutexSolo.WokenReaderAlone: likewise where giving its unit back begins a hand-over.
- FutexProgress.NobodyStranded: some continuation wakes the client, not every fair one; with a clone on its way that is not parked nothing is said.
- ExitLocks.FinalizedOnceUnderLock: the closures of a section run in one step of the record, when its holder lets go of the guard.
- Liveness of the lockers under a fair scheduler, beyond the absence of lost wake-ups, the bypass bound and `FutexProgress.NobodyStranded`.
