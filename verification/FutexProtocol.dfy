/** The futex phase locker as a transition system (src/phase_locker/sync.rs, src/phase_locker/futex.rs).

    Any number of clients (one per lock call, clone call or live guard) share one word.  One step is one
    atomic operation of one client together with the local computation up to its next atomic operation.
    A client's program point `Pc` names the atomic operation it is about to perform.
 */
module FutexProtocol {
  import opened Phases

  const MAX_WAKED_READERS := 0x10_0000  // READER_OVERF / READER_UNITY, and the weight of READER_OVERF
  const READ_FAIRNESS_PERIOD := 32

  datatype Option<T> = None | Some(value: T)

  /** The decoded lock word: the phase byte, the 21-bit reader field READER_OVERF|READER_BITS, and the
      bits LOCKED_BIT, READ_WAITER_BIT, WRITE_WAITER_BIT.  Module Words relates it to the 32-bit word. */
  datatype Word = Word(phase: Phase, readers: nat, locked: bool, rw: bool, ww: bool)

  function Pure(p: Phase): Word { Word(p, 0, false, false, false) }

  predicate Free(w: Word) { !w.locked && w.readers == 0 && !w.rw && !w.ww }

  predicate HasWaiters(w: Word) { w.rw || w.ww }

  /** READER_BITS all set: `has_readers_max`. */
  predicate ReadersMax(w: Word) { w.readers % MAX_WAKED_READERS == MAX_WAKED_READERS - 1 }

  predicate WriteLockable(w: Word) { !w.locked && (w.readers != 0 || !HasWaiters(w)) }

  predicate ReadLockable(w: Word) {
    (w.readers != 0 || (!HasWaiters(w) && !w.locked)) && !ReadersMax(w)
  }

  /** The reader field after a xor with READER_UNITY, and after one with READER_OVERF. */
  function XorUnity(r: nat): nat { if r % 2 == 0 then r + 1 else r - 1 }

  function XorOverf(r: nat): nat {
    if r / MAX_WAKED_READERS % 2 == 0 then r + MAX_WAKED_READERS else Monus(r, MAX_WAKED_READERS)
  }

  datatype LockNature = Read | Write | NoLock

  /** The hypothesis on the closures: once `how` answers Read it does so for every later phase. */
  ghost predicate Stable(how: Phase -> LockNature) {
    forall p, q :: how(p).Read? && Advances(p, q) ==> how(q).Read?
  }

  type Rule = how: Phase -> LockNature | Stable(how) ghost witness (_ => Write)

  /** The arguments of one `lock` or `try_lock` call. */
  datatype Call = Call(how: Rule, onWait: Phase -> LockNature, hint: Phase, trying: bool)

  /** Who may come to wait as a reader: a lock call, or a clone of the guard held by client `src`. */
  datatype Job = Lock(call: Call) | Clone(src: nat)

  /** Where a read lock was requested: the caller of the function `read_lock` or the loop of `try_raw_lock`. */
  datatype Site = Fast(call: Call) | Slow(call: Call) | Try(call: Call) | Cloning(src: nat)

  /** Where a read guard comes from: a lock call, or a clone or conversion of another guard. */
  datatype Origin = FromCall(call: Call) | Derived

  /** What a client does once its release, and any hand-over it had to perform, is over. */
  datatype Next = Finish | AnswerNone(call: Call, p: Phase) | Retry(call: Call)

  /** What a waker of readers does with its own unit: keep it as a guard, or release it. */
  datatype After = Keep(origin: Origin, p: Phase) | Release(next: Next)

  datatype Pc =
    | Idle
    | AnsweredNone(call: Call, p: Phase)
    | Refused(call: Call)
    // try_raw_lock, raw_lock, optimistic_lock
    | Optimistic(call: Call)
    | FastWrite(call: Call, cur: Word)
    // read_lock and the loop of try_raw_lock
    | ReadCas(site: Site, cur: Word)
    | ReadReload(site: Site)
    // raw_lock_slow
    | SlowLoad(call: Call)
    | SlowWrite(call: Call, cur: Word)
    | Announce(call: Call, cur: Word)
    | MarkWriter(call: Call, cur: Word)
    | MarkReader(job: Job, cur: Word)
    // wait_for_readers
    | WaitReaders(call: Call)
    | Withdraw(call: Call, cur: Word)
    // wait_as_writer_then_wake_with_lock, compare_and_wait_as_writer
    | CountWriter(call: Call, cur: Word)
    | ParkWriter(call: Call, cur: Word)
    | UncountWriter(call: Call)
    | ParkedWriter(call: Call)
    | WokenWriter(call: Call)
    | RemarkWriter(call: Call)
    | WokenLoad(call: Call)
    // wait_as_reader_then_wake_with_lock, compare_and_wait_as_reader
    | ParkReader(job: Job, cur: Word)
    | ParkedReader(job: Job)
    | WokenReader(job: Job)
    // ReadLock::clone
    | CloneLoad(src: nat)
    // guards
    | HoldRead(origin: Origin, p: Phase)
    | HoldWrite(call: Call, init: Phase, onUnlock: Phase)
    | DropRead(p: Phase, next: Next)
    | DropWrite(init: Phase, onUnlock: Phase, next: Next)
    | DropWriteXor(init: Phase, onUnlock: Phase, next: Next)
    | Convert(origin: Origin, init: Phase, onUnlock: Phase)
    | ConvertXor(origin: Origin, p: Phase)
    // transfer_lock
    | Transfer(cur: Word, next: Next)
    | HandXor(prefer: bool, cur: Word, next: Next)
    | HandWake(prefer: bool, cur: Word, next: Next)
    | HandUnlock(prefer: bool, next: Next)
    | ReadersXor(unactivate: bool, next: Next)
    // wake_readers
    | WakeReaders(after: After)
    | RemarkReader(count: nat, after: After)
    | Settle(count: nat, after: After)

  /** The whole system.  `watch` and `handoffs` are history: a `transfer_lock` call saw READ_WAITER at its
      entry and readers have not been woken since, and how many writers were handed the lock since then. */
  datatype State = State(w: Word, writerCount: nat, fairness: nat, pcs: seq<Pc>, watch: bool, handoffs: nat)

  /** What the scheduler, the weak compare-exchange, the spin counters, the kernel and the callers decide. */
  datatype Choice =
    | Plain(spurious: bool, spin: bool)
    | Begin(call: Call)
    | BeginClone(src: nat)
    | Plan(phase: Phase)
    | DropGuard
    | Downgrade
    | WakeOne(target: nat)
    | WakeNone
    | WakeSet(woken: set<nat>)

  // ---------- local computations between two atomic operations ----------

  function Resume(next: Next): Pc {
    match next
    case Finish => Idle
    case AnswerNone(call, p) => AnsweredNone(call, p)
    case Retry(call) => SlowLoad(call)
  }

  function GiveUp(call: Call): Pc { if call.trying then Refused(call) else SlowLoad(call) }

  /** sync.rs:767-809 and 836-873, after the optimistic attempt. */
  function SecondAttempt(call: Call, cur: Word): Pc {
    match call.how(cur.phase)
    case Write => if WriteLockable(cur) && cur.readers == 0 then FastWrite(call, cur) else GiveUp(call)
    case Read =>
      if ReadLockable(cur) then ReadCas(if call.trying then Try(call) else Fast(call), cur) else GiveUp(call)
    case NoLock => AnsweredNone(call, cur.phase)
  }

  /** sync.rs:966-1035. */
  function OnWait(call: Call, cur: Word): Pc {
    match call.onWait(cur.phase)
    case NoLock => AnsweredNone(call, cur.phase)
    case Write => if cur.ww then CountWriter(call, cur) else MarkWriter(call, cur)
    case Read => if cur.rw then ParkReader(Lock(call), cur) else MarkReader(Lock(call), cur)
  }

  /** sync.rs:959-966, when no read lock could be taken. */
  function ReadBlocked(call: Call, cur: Word, spin: bool): Pc {
    if !HasWaiters(cur) && spin then SlowLoad(call) else OnWait(call, cur)
  }

  /** The loop head of `raw_lock_slow`, sync.rs:892-966. */
  function SlowLoop(call: Call, cur: Word, spin: bool): Pc {
    match call.how(cur.phase)
    case NoLock => AnsweredNone(call, cur.phase)
    case Write =>
      if WriteLockable(cur) then
        if cur.readers == 0 then SlowWrite(call, cur) else Announce(call, cur)
      else if !cur.ww && spin then SlowLoad(call) else OnWait(call, cur)
    case Read => if ReadLockable(cur) then ReadCas(Slow(call), cur) else ReadBlocked(call, cur, spin)
  }

  /** sync.rs:505-524, when the reader field is full. */
  function CloneBlocked(src: nat, cur: Word, spin: bool): Pc {
    if cur.rw then ParkReader(Clone(src), cur)
    else if spin then CloneLoad(src)
    else MarkReader(Clone(src), cur)
  }

  /** The loop head of `ReadLock::clone`, sync.rs:497-523. */
  function CloneLoop(src: nat, cur: Word, spin: bool): Pc {
    if !ReadersMax(cur) then ReadCas(Cloning(src), cur) else CloneBlocked(src, cur, spin)
  }

  /** The reload of `read_lock` and its `shall_continue` test, sync.rs:1108-1114. */
  function Reloaded(site: Site, cur: Word, spin: bool): Pc {
    match site
    case Fast(call) => if call.how(cur.phase).Read? && ReadLockable(cur) then ReadCas(site, cur) else SlowLoad(call)
    case Slow(call) =>
      if call.how(cur.phase).Read? && ReadLockable(cur) then ReadCas(site, cur) else ReadBlocked(call, cur, spin)
    case Try(call) =>
      if call.how(cur.phase).Read? && ReadLockable(cur) then ReadCas(site, cur) else Refused(call)
    case Cloning(src) => if !ReadersMax(cur) then ReadCas(site, cur) else CloneBlocked(src, cur, spin)
  }

  function Acquired(site: Site, p: Phase): Pc {
    match site
    case Cloning(_) => HoldRead(Derived, p)
    case _ => HoldRead(FromCall(site.call), p)
  }

  /** The loop heads of `transfer_lock`, sync.rs:335-359 and 371-378. */
  function HandOver(prefer: bool, cur: Word, next: Next): Pc {
    if prefer then
      if cur.ww then HandXor(prefer, cur, next)
      else if cur.rw then ReadersXor(false, next)
      else HandUnlock(prefer, next)
    else if cur.rw then ReadersXor(false, next) else HandXor(prefer, cur, next)
  }

  function AfterParkFailed(job: Job): Pc {
    match job
    case Lock(call) => SlowLoad(call)
    case Clone(src) => CloneLoad(src)
  }

  /** sync.rs:1168-1183 and 526-530: what a woken reader makes of the unit it was given. */
  function ReaderAwake(job: Job, p: Phase): Pc {
    match job
    case Clone(_) => HoldRead(Derived, p)
    case Lock(call) =>
      match call.how(p)
      case Read => HoldRead(FromCall(call), p)
      case NoLock => DropRead(p, AnswerNone(call, p))
      case Write => DropRead(p, Retry(call))
  }

  /** sync.rs:1129-1153: what a woken writer makes of the lock it was given. */
  function WriterAwake(call: Call, p: Phase): Pc {
    match call.how(p)
    case Write => HoldWrite(call, p, p)
    case Read => Convert(FromCall(call), p, p)
    case NoLock => DropWrite(p, p, AnswerNone(call, p))
  }

  function Settled(after: After, p: Phase): Pc {
    match after
    case Keep(origin, _) => HoldRead(origin, p)
    case Release(next) => DropRead(p, next)
  }

  // ---------- the parked queues ----------

  function ParkedReaders(pcs: seq<Pc>): set<nat> { set i: nat | i < |pcs| && pcs[i].ParkedReader? }

  /** Wakes every reader in `woken`. */
  function WakeAll(pcs: seq<Pc>, woken: set<nat>): (r: seq<Pc>)
    ensures |r| == |pcs|
    ensures forall i: nat :: i < |pcs| ==>
      r[i] == if i in woken && pcs[i].ParkedReader? then WokenReader(pcs[i].job) else pcs[i]
  {
    if pcs == [] then [] else
      var n := |pcs| - 1;
      WakeAll(pcs[..n], woken)
      + [if n in woken && pcs[n].ParkedReader? then WokenReader(pcs[n].job) else pcs[n]]
  }

  predicate Borrowed(pcs: seq<Pc>, c: nat) {
    exists i: nat :: i < |pcs| && CloneSource(pcs[i]) == Some(c)
  }

  function CloneSource(pc: Pc): Option<nat> {
    match pc
    case ReadCas(Cloning(src), _) => Some(src)
    case ReadReload(Cloning(src)) => Some(src)
    case CloneLoad(src) => Some(src)
    case MarkReader(Clone(src), _) => Some(src)
    case ParkReader(Clone(src), _) => Some(src)
    case ParkedReader(Clone(src)) => Some(src)
    case WokenReader(Clone(src)) => Some(src)
    case _ => None
  }

  // ---------- the steps ----------

  /** Which choices client `c` has.  A parked client has none: only a waker moves it. */
  ghost predicate Enabled(s: State, c: nat, ch: Choice) {
    c < |s.pcs| &&
    match s.pcs[c]
    case Idle =>
      ch.Begin? || (ch.BeginClone? && ch.src < |s.pcs| && s.pcs[ch.src].HoldRead?)
    case ParkedReader(_) => false
    case ParkedWriter(_) => false
    case HoldRead(_, _) => ch.DropGuard? && !Borrowed(s.pcs, c)
    case HoldWrite(_, init, _) => (ch.Plan? && Advances(init, ch.phase)) || ch.DropGuard? || ch.Downgrade?
    case HandWake(_, _, _) =>
      (ch.WakeOne? && ch.target < |s.pcs| && s.pcs[ch.target].ParkedWriter?) ||
      (ch.WakeNone? && forall i: nat :: i < |s.pcs| ==> !s.pcs[i].ParkedWriter?)
    case WakeReaders(_) =>
      ch.WakeSet? && ch.woken <= ParkedReaders(s.pcs) &&
      |ch.woken| == if |ParkedReaders(s.pcs)| < MAX_WAKED_READERS then |ParkedReaders(s.pcs)| else MAX_WAKED_READERS
    case _ => ch.Plain?
  }

  function Move(s: State, c: nat, pc: Pc): State
    requires c < |s.pcs|
  {
    s.(pcs := s.pcs[c := pc])
  }

  function MoveWord(s: State, c: nat, pc: Pc, w: Word): State
    requires c < |s.pcs|
  {
    s.(pcs := s.pcs[c := pc], w := w)
  }

  /** A compare-exchange that succeeds iff the word is `expected` (and, when weak, does not fail spuriously). */
  predicate Swaps(s: State, expected: Word, spurious: bool) { s.w == expected && !spurious }

  /** A `transfer_lock` call starts: it is watched from now on if it sees READ_WAITER. */
  function StartTransfer(s: State, c: nat, w: Word, next: Next): State
    requires c < |s.pcs|
  {
    var t := MoveWord(s, c, Transfer(w, next), w);
    if w.rw && !s.watch then t.(watch := true, handoffs := 0) else t
  }

  function Monus(n: nat, k: nat): nat { if n >= k then n - k else 0 }

  /** `optimistic_lock`, sync.rs:1043-1087. */
  function OptimisticStep(s: State, c: nat, call: Call, spurious: bool): State
    requires c < |s.pcs|
  {
    match call.how(call.hint)
    case NoLock =>
      Move(s, c, if call.how(s.w.phase).NoLock? then AnsweredNone(call, s.w.phase) else SecondAttempt(call, s.w))
    case Write =>
      if Swaps(s, Pure(call.hint), spurious)
      then MoveWord(s, c, HoldWrite(call, call.hint, call.hint), s.w.(locked := true))
      else Move(s, c, SecondAttempt(call, s.w))
    case Read =>
      if Swaps(s, Pure(call.hint), spurious)
      then MoveWord(s, c, HoldRead(FromCall(call), call.hint), s.w.(readers := s.w.readers + 1))
      else Move(s, c, SecondAttempt(call, s.w))
  }

  /** sync.rs:771-784 (a strong compare-exchange) and 840-853 (a weak one). */
  function FastWriteStep(s: State, c: nat, call: Call, cur: Word, spurious: bool): State
    requires c < |s.pcs|
  {
    if Swaps(s, cur, spurious && !call.trying)
    then MoveWord(s, c, HoldWrite(call, cur.phase, cur.phase), s.w.(locked := true))
    else Move(s, c, GiveUp(call))
  }

  /** The compare-exchange of `read_lock`, sync.rs:1099-1107, and of `try_raw_lock`, sync.rs:790-803. */
  function ReadCasStep(s: State, c: nat, site: Site, cur: Word, spurious: bool, spin: bool): State
    requires c < |s.pcs|
  {
    if Swaps(s, cur, spurious) then MoveWord(s, c, Acquired(site, cur.phase), s.w.(readers := s.w.readers + 1))
    else Move(s, c, if site.Try? then Reloaded(site, s.w, spin) else ReadReload(site))
  }

  /** sync.rs:900-913. */
  function SlowWriteStep(s: State, c: nat, call: Call, cur: Word, spurious: bool, spin: bool): State
    requires c < |s.pcs|
  {
    if Swaps(s, cur, spurious)
    then MoveWord(s, c, HoldWrite(call, cur.phase, cur.phase), s.w.(locked := true))
    else Move(s, c, SlowLoop(call, s.w, spin))
  }

  /** Locking while readers are inside, sync.rs:916-927. */
  function AnnounceStep(s: State, c: nat, call: Call, cur: Word, spurious: bool, spin: bool): State
    requires c < |s.pcs|
  {
    if Swaps(s, cur, spurious) then MoveWord(s, c, WaitReaders(call), s.w.(locked := true))
    else Move(s, c, SlowLoop(call, s.w, spin))
  }

  /** sync.rs:973-986. */
  function MarkWriterStep(s: State, c: nat, call: Call, cur: Word, spurious: bool, spin: bool): State
    requires c < |s.pcs|
  {
    if Swaps(s, cur, spurious) then MoveWord(s, c, CountWriter(call, cur.(ww := true)), s.w.(ww := true))
    else Move(s, c, SlowLoop(call, s.w, spin))
  }

  /** sync.rs:1005-1018 and 510-523. */
  function MarkReaderStep(s: State, c: nat, job: Job, cur: Word, spurious: bool, spin: bool): State
    requires c < |s.pcs|
  {
    if Swaps(s, cur, spurious) then MoveWord(s, c, ParkReader(job, cur.(rw := true)), s.w.(rw := true))
    else Move(s, c, if job.Lock? then SlowLoop(job.call, s.w, spin) else CloneLoop(job.src, s.w, spin))
  }

  /** The spinning half of `wait_for_readers`, sync.rs:1193-1198. */
  function WaitReadersStep(s: State, c: nat, call: Call, spin: bool): State
    requires c < |s.pcs|
  {
    Move(s, c, if s.w.readers == 0 then HoldWrite(call, s.w.phase, s.w.phase)
               else if spin then WaitReaders(call) else Withdraw(call, s.w))
  }

  /** The withdrawal of `wait_for_readers`, sync.rs:1200-1220. */
  function WithdrawStep(s: State, c: nat, call: Call, cur: Word, spurious: bool): State
    requires c < |s.pcs|
  {
    if Swaps(s, cur, spurious)
    then MoveWord(s, c, OnWait(call, cur.(ww := true, locked := false)), s.w.(ww := true, locked := false))
    else Move(s, c, if s.w.readers == 0 then HoldWrite(call, s.w.phase, s.w.phase) else Withdraw(call, s.w))
  }

  /** futex.rs:65. */
  function CountWriterStep(s: State, c: nat, call: Call, cur: Word): State
    requires c < |s.pcs|
  {
    Move(s, c, ParkWriter(call, cur)).(writerCount := s.writerCount + 1)
  }

  /** futex.rs:79 when the kernel refused to park. */
  function UncountWriterStep(s: State, c: nat, call: Call): State
    requires c < |s.pcs|
  {
    Move(s, c, SlowLoad(call)).(writerCount := Monus(s.writerCount, 1))
  }

  /** futex.rs:79-85 after a wake-up. */
  function WokenWriterStep(s: State, c: nat, call: Call): State
    requires c < |s.pcs|
  {
    Move(s, c, if s.writerCount > 1 then RemarkWriter(call) else WokenLoad(call))
      .(writerCount := Monus(s.writerCount, 1))
  }

  /** The futex wait of a writer and of a reader: park iff the word still is `cur`. */
  function ParkWriterStep(s: State, c: nat, call: Call, cur: Word): State
    requires c < |s.pcs|
  {
    Move(s, c, if s.w == cur then ParkedWriter(call) else UncountWriter(call))
  }

  function ParkReaderStep(s: State, c: nat, job: Job, cur: Word): State
    requires c < |s.pcs|
  {
    Move(s, c, if s.w == cur then ParkedReader(job) else AfterParkFailed(job))
  }

  /** `Drop for ReadLock`, sync.rs:479-491. */
  function DropReadStep(s: State, c: nat, next: Next): State
    requires c < |s.pcs|
  {
    var w := s.w.(readers := Monus(s.w.readers, 1));
    if s.w.readers == 1 && !s.w.locked && HasWaiters(s.w) then StartTransfer(s, c, w, next)
    else MoveWord(s, c, Resume(next), w)
  }

  /** The compare-exchange of `Drop for Lock`, sync.rs:407-417. */
  function DropWriteStep(s: State, c: nat, init: Phase, onUnlock: Phase, next: Next): State
    requires c < |s.pcs|
  {
    if s.w == Pure(init).(locked := true) then MoveWord(s, c, Resume(next), Pure(onUnlock))
    else Move(s, c, DropWriteXor(init, onUnlock, next))
  }

  /** The word after the xor of `(init ^ onUnlock) | LOCKED_BIT`. */
  function Unlocked(w: Word, init: Phase, onUnlock: Phase): Word {
    w.(phase := Difference(w.phase, Difference(init, onUnlock)), locked := !w.locked)
  }

  /** The xor of `Drop for Lock`, sync.rs:423-430. */
  function DropWriteXorStep(s: State, c: nat, init: Phase, onUnlock: Phase, next: Next): State
    requires c < |s.pcs|
  {
    var w := Unlocked(s.w, init, onUnlock);
    if HasWaiters(s.w) then StartTransfer(s, c, w, next) else MoveWord(s, c, Resume(next), w)
  }

  /** `into_read_lock`, sync.rs:309-319. */
  function ConvertStep(s: State, c: nat, origin: Origin, init: Phase, onUnlock: Phase): State
    requires c < |s.pcs|
  {
    MoveWord(s, c, if s.w.rw then ConvertXor(origin, onUnlock) else HoldRead(origin, onUnlock),
      Unlocked(s.w, init, onUnlock).(readers := XorUnity(s.w.readers)))
  }

  /** The xor of `wake_readers` when it converts, sync.rs:588-601. */
  function ConvertXorStep(s: State, c: nat, origin: Origin, p: Phase): State
    requires c < |s.pcs|
  {
    MoveWord(s, c, WakeReaders(Keep(origin, p)), s.w.(rw := !s.w.rw, readers := XorOverf(s.w.readers)))
      .(watch := false)
  }

  /** The xor of `wake_readers` when it ends a hand-over, sync.rs:588-601. */
  function ReadersXorStep(s: State, c: nat, unactivate: bool, next: Next): State
    requires c < |s.pcs|
  {
    MoveWord(s, c, WakeReaders(Release(next)),
      s.w.(rw := !s.w.rw, locked := s.w.locked != unactivate, readers := XorOverf(XorUnity(s.w.readers))))
      .(watch := false)
  }

  /** The fairness test of `transfer_lock`, sync.rs:334 and futex.rs:47-49. */
  function TransferStep(s: State, c: nat, cur: Word, next: Next): State
    requires c < |s.pcs|
  {
    Move(s, c, HandOver(s.fairness % READ_FAIRNESS_PERIOD != 0, cur, next))
  }

  /** sync.rs:339 and 381. */
  function HandXorStep(s: State, c: nat, prefer: bool, cur: Word, next: Next): State
    requires c < |s.pcs|
  {
    MoveWord(s, c, HandWake(prefer, cur, next), s.w.(ww := !s.w.ww, locked := !s.w.locked))
  }

  /** `wake_one_writer` finds the parked writer `target`, futex.rs:108-120 and sync.rs:342-344, 384-386.
      The fairness counter is a u16 that wraps; only the client that hands over touches it. */
  function WakeOneStep(s: State, c: nat, next: Next, target: nat): State
    requires c < |s.pcs| && target < |s.pcs| && s.pcs[target].ParkedWriter?
  {
    s.(pcs := s.pcs[target := WokenWriter(s.pcs[target].call)][c := Resume(next)],
       fairness := (s.fairness + 1) % 0x1_0000,
       handoffs := if s.watch then s.handoffs + 1 else s.handoffs)
  }

  /** `wake_one_writer` finds nobody. */
  function WakeNoneStep(s: State, c: nat, prefer: bool, cur: Word, next: Next): State
    requires c < |s.pcs|
  {
    Move(s, c, if prefer && cur.rw then ReadersXor(true, next) else HandUnlock(prefer, next))
      .(fairness := (s.fairness + 1) % 0x1_0000)
  }

  /** sync.rs:362-367 and 390-397. */
  function HandUnlockStep(s: State, c: nat, prefer: bool, next: Next): State
    requires c < |s.pcs|
  {
    MoveWord(s, c,
      if HasWaiters(s.w) then HandOver(prefer, s.w.(locked := false), next) else Resume(next),
      s.w.(locked := false))
  }

  /** The futex wake of `wake_readers`, futex.rs:90-107. */
  function WakeReadersStep(s: State, c: nat, after: After, woken: set<nat>): State
    requires c < |s.pcs|
  {
    Move(s.(pcs := WakeAll(s.pcs, woken), fairness := 1), c,
      if |woken| == MAX_WAKED_READERS then RemarkReader(|woken|, after) else Settle(|woken|, after))
  }

  /** The settling subtraction, sync.rs:605-606. */
  function SettleStep(s: State, c: nat, count: nat, after: After): State
    requires c < |s.pcs|
  {
    MoveWord(s, c, Settled(after, s.w.phase),
      s.w.(readers := Monus(s.w.readers, Monus(MAX_WAKED_READERS, count))))
  }

  /** The effect of one step of client `c`. */
  ghost function Step(s: State, c: nat, ch: Choice): (t: State)
    requires Enabled(s, c, ch)
  {
    match s.pcs[c]
    case Idle => Move(s, c, if ch.Begin? then Optimistic(ch.call) else CloneLoad(ch.src))
    case AnsweredNone(_, _) => Move(s, c, Idle)
    case Refused(_) => Move(s, c, Idle)
    case Optimistic(call) => OptimisticStep(s, c, call, ch.spurious)
    case FastWrite(call, cur) => FastWriteStep(s, c, call, cur, ch.spurious)
    case ReadCas(site, cur) => ReadCasStep(s, c, site, cur, ch.spurious, ch.spin)
    case ReadReload(site) => Move(s, c, Reloaded(site, s.w, ch.spin))
    case SlowLoad(call) => Move(s, c, SlowLoop(call, s.w, ch.spin))
    case SlowWrite(call, cur) => SlowWriteStep(s, c, call, cur, ch.spurious, ch.spin)
    case Announce(call, cur) => AnnounceStep(s, c, call, cur, ch.spurious, ch.spin)
    case MarkWriter(call, cur) => MarkWriterStep(s, c, call, cur, ch.spurious, ch.spin)
    case MarkReader(job, cur) => MarkReaderStep(s, c, job, cur, ch.spurious, ch.spin)
    case WaitReaders(call) => WaitReadersStep(s, c, call, ch.spin)
    case Withdraw(call, cur) => WithdrawStep(s, c, call, cur, ch.spurious)
    case CountWriter(call, cur) => CountWriterStep(s, c, call, cur)
    case ParkWriter(call, cur) => ParkWriterStep(s, c, call, cur)
    case UncountWriter(call) => UncountWriterStep(s, c, call)
    case WokenWriter(call) => WokenWriterStep(s, c, call)
    case RemarkWriter(call) => MoveWord(s, c, WokenLoad(call), s.w.(ww := true))
    case WokenLoad(call) => Move(s, c, WriterAwake(call, s.w.phase))
    case ParkReader(job, cur) => ParkReaderStep(s, c, job, cur)
    case WokenReader(job) => Move(s, c, ReaderAwake(job, s.w.phase))
    case CloneLoad(src) => Move(s, c, CloneLoop(src, s.w, ch.spin))
    case HoldRead(_, p) => Move(s, c, DropRead(p, Finish))
    case HoldWrite(call, init, onUnlock) =>
      Move(s, c, if ch.Plan? then HoldWrite(call, init, ch.phase)
                 else if ch.DropGuard? then DropWrite(init, onUnlock, Finish)
                 else Convert(Derived, init, onUnlock))
    case DropRead(_, next) => DropReadStep(s, c, next)
    case DropWrite(init, onUnlock, next) => DropWriteStep(s, c, init, onUnlock, next)
    case DropWriteXor(init, onUnlock, next) => DropWriteXorStep(s, c, init, onUnlock, next)
    case Convert(origin, init, onUnlock) => ConvertStep(s, c, origin, init, onUnlock)
    case ConvertXor(origin, p) => ConvertXorStep(s, c, origin, p)
    case Transfer(cur, next) => TransferStep(s, c, cur, next)
    case HandXor(prefer, cur, next) => HandXorStep(s, c, prefer, cur, next)
    case HandWake(prefer, cur, next) =>
      if ch.WakeOne? then WakeOneStep(s, c, next, ch.target) else WakeNoneStep(s, c, prefer, cur, next)
    case HandUnlock(prefer, next) => HandUnlockStep(s, c, prefer, next)
    case ReadersXor(unactivate, next) => ReadersXorStep(s, c, unactivate, next)
    case WakeReaders(after) => WakeReadersStep(s, c, after, ch.woken)
    case RemarkReader(count, after) => MoveWord(s, c, Settle(count, after), s.w.(rw := true))
    case Settle(count, after) => SettleStep(s, c, count, after)
  }
}
