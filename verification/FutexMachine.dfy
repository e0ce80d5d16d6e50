/** The futex phase locker on its real fields: the 32-bit word, `writer_count` and the fairness counter
    (src/phase_locker/sync.rs, src/phase_locker/futex.rs).

    Each method is one atomic operation of one client, in the bit operations of the source and with its
    assertions.  The contracts say that it is exactly the step of FutexProtocol on the decoded word, so
    everything proved of that transition system holds of the fields.
 */
module FutexMachine {
  import opened Phases
  import opened FutexProtocol
  import opened FutexInvariant
  import opened FutexTheorems
  import opened FutexRuns
  import opened Words
  import opened LockBits

  lemma StartReachable(p: Phase, n: nat)
    ensures Reachable(Start(p, n))
  {
    var s := Start(p, n);
    assert [s][0] == Start(p, n);
    assert IsRun([s], []);
    assert [s][|[s]| - 1] == s;
  }

  /** What a client finds in the word. */
  lemma Here(s: State, c: nat)
    requires Reachable(s) && c < |s.pcs|
    ensures PcOk(s.w, s.pcs[c])
    ensures Weight(Units, s.pcs[c]) <= s.w.readers < FIELD
    ensures Weight(Token, s.pcs[c]) == 1 ==> s.w.locked
    ensures Weight(Agent, s.pcs[c]) == 1 ==> !s.w.locked && s.w.readers == 0 && HasWaiters(s.w)
  {
    ReachableOk(s);
    assert s.pcs[c] == s.pcs[c];
    SumAtLeast(Units, s.pcs, c);
    SumAtLeast(Token, s.pcs, c);
    SumAtLeast(Agent, s.pcs, c);
  }

  /** `t` has the word `w` and the counters of `s`. */
  predicate Leaves(s: State, t: State, w: Word) {
    t.w == w && t.writerCount == s.writerCount && t.fairness == s.fairness
  }

  // ---------- one lemma for each operation: it is a step, and what makes its bit arithmetic right ----------

  lemma OptimisticRuns(s: State, v: nat, c: nat, call: Call, spurious: bool)
    requires Reachable(s) && c < |s.pcs| && s.pcs[c] == Optimistic(call)
    requires v <= ALL_BITS && s.w == Decode(v)
    ensures Reachable(OptimisticStep(s, c, call, spurious))
    ensures var hint := Bits(call.hint); var nature := call.how(call.hint);
      Hinted(nature, hint) <= ALL_BITS && Leaves(s, OptimisticStep(s, c, call, spurious),
        Decode(if v == hint && !spurious then Hinted(nature, hint) else v))
  {
    Extend(s, c, Plain(spurious, false));
    PhaseWord(call.hint);
    HintedWord(call.hint, call.how(call.hint));
    DecodeInjective(v, Bits(call.hint));
  }

  lemma LockFreeRuns(s: State, c: nat, call: Call, cur: Word, spurious: bool, spin: bool)
    requires Reachable(s) && c < |s.pcs| && s.pcs[c] == SlowWrite(call, cur)
    ensures Reachable(SlowWriteStep(s, c, call, cur, spurious, spin))
  {
    Extend(s, c, Plain(spurious, spin));
  }

  lemma LockFastRuns(s: State, c: nat, call: Call, cur: Word, spurious: bool)
    requires Reachable(s) && c < |s.pcs| && s.pcs[c] == FastWrite(call, cur)
    ensures Reachable(FastWriteStep(s, c, call, cur, spurious))
  {
    Extend(s, c, Plain(spurious, false));
  }

  lemma AnnounceRuns(s: State, c: nat, call: Call, cur: Word, spurious: bool, spin: bool)
    requires Reachable(s) && c < |s.pcs| && s.pcs[c] == Announce(call, cur)
    ensures Reachable(AnnounceStep(s, c, call, cur, spurious, spin))
  {
    Extend(s, c, Plain(spurious, spin));
  }

  lemma WithdrawRuns(s: State, c: nat, call: Call, cur: Word, spurious: bool)
    requires Reachable(s) && c < |s.pcs| && s.pcs[c] == Withdraw(call, cur)
    ensures Reachable(WithdrawStep(s, c, call, cur, spurious))
    ensures Leaves(s, WithdrawStep(s, c, call, cur, spurious),
      if Swaps(s, cur, spurious) then cur.(ww := true, locked := false) else s.w)
  {
    Extend(s, c, Plain(spurious, false));
  }

  /** The addition of a read lock does not overflow, and adds one to the field. */
  lemma ReadCasAdds(s: State, c: nat, site: Site, cur: nat)
    requires Reachable(s) && c < |s.pcs| && cur <= ALL_BITS && s.pcs[c] == ReadCas(site, Decode(cur))
    ensures cur + READER_UNITY <= ALL_BITS
    ensures Decode(cur + READER_UNITY) == Decode(cur).(readers := Decode(cur).readers + 1)
  {
    Here(s, c);
    AddUnity(cur);
  }

  lemma ReadCasGoesOn(s: State, c: nat, site: Site, cur: Word, spurious: bool, spin: bool)
    requires Reachable(s) && c < |s.pcs| && s.pcs[c] == ReadCas(site, cur)
    ensures Reachable(ReadCasStep(s, c, site, cur, spurious, spin))
  {
    Extend(s, c, Plain(spurious, spin));
  }

  lemma ReadCasRuns(s: State, v: nat, c: nat, site: Site, cur: nat, spurious: bool, spin: bool)
    requires Reachable(s) && c < |s.pcs| && cur <= ALL_BITS && s.pcs[c] == ReadCas(site, Decode(cur))
    requires v <= ALL_BITS && s.w == Decode(v)
    ensures cur + READER_UNITY <= ALL_BITS && Reachable(ReadCasStep(s, c, site, Decode(cur), spurious, spin))
    ensures Leaves(s, ReadCasStep(s, c, site, Decode(cur), spurious, spin),
      Decode(if v == cur && !spurious then cur + READER_UNITY else v))
  {
    ReadCasAdds(s, c, site, cur);
    ReadCasGoesOn(s, c, site, Decode(cur), spurious, spin);
    DecodeInjective(v, cur);
  }

  lemma MarkWriterRuns(s: State, c: nat, call: Call, cur: Word, spurious: bool, spin: bool)
    requires Reachable(s) && c < |s.pcs| && s.pcs[c] == MarkWriter(call, cur)
    ensures Reachable(MarkWriterStep(s, c, call, cur, spurious, spin))
  {
    Extend(s, c, Plain(spurious, spin));
  }

  lemma MarkReaderRuns(s: State, c: nat, job: Job, cur: Word, spurious: bool, spin: bool)
    requires Reachable(s) && c < |s.pcs| && s.pcs[c] == MarkReader(job, cur)
    ensures Reachable(MarkReaderStep(s, c, job, cur, spurious, spin))
  {
    Extend(s, c, Plain(spurious, spin));
  }

  lemma CountRuns(s: State, c: nat, call: Call, cur: Word)
    requires Reachable(s) && c < |s.pcs| && s.pcs[c] == CountWriter(call, cur)
    ensures SourceAsserts(s, s.pcs[c]) && Reachable(CountWriterStep(s, c, call, cur))
  {
    AssertsHold(s, c);
    Extend(s, c, GO);
  }

  lemma WokenRuns(s: State, c: nat, call: Call)
    requires Reachable(s) && c < |s.pcs| && s.pcs[c] == WokenWriter(call)
    ensures s.writerCount != 0 && Reachable(WokenWriterStep(s, c, call))
  {
    AssertsHold(s, c);
    Extend(s, c, GO);
  }

  lemma RefusedRuns(s: State, c: nat, call: Call)
    requires Reachable(s) && c < |s.pcs| && s.pcs[c] == UncountWriter(call)
    ensures s.writerCount != 0 && Reachable(UncountWriterStep(s, c, call))
  {
    AssertsHold(s, c);
    Extend(s, c, GO);
  }

  lemma WakeOneRuns(s: State, c: nat, prefer: bool, cur: Word, next: Next, target: nat)
    requires Reachable(s) && c < |s.pcs| && s.pcs[c] == HandWake(prefer, cur, next)
    requires target < |s.pcs| && s.pcs[target].ParkedWriter?
    ensures Reachable(WakeOneStep(s, c, next, target))
  {
    Extend(s, c, WakeOne(target));
  }

  lemma WakeNoneRuns(s: State, c: nat, prefer: bool, cur: Word, next: Next)
    requires Reachable(s) && c < |s.pcs| && s.pcs[c] == HandWake(prefer, cur, next)
    requires forall i: nat :: i < |s.pcs| ==> !s.pcs[i].ParkedWriter?
    ensures Reachable(WakeNoneStep(s, c, prefer, cur, next))
  {
    Extend(s, c, WakeNone);
  }

  lemma WakeReadersRuns(s: State, c: nat, after: After, woken: set<nat>)
    requires c < |s.pcs| && s.pcs[c] == WakeReaders(after) && Reachable(s) && Enabled(s, c, WakeSet(woken))
    ensures Reachable(WakeReadersStep(s, c, after, woken))
  {
    Extend(s, c, WakeSet(woken));
  }

  lemma RemarkWriterRuns(s: State, c: nat, call: Call)
    requires Reachable(s) && c < |s.pcs| && s.pcs[c] == RemarkWriter(call)
    ensures Reachable(MoveWord(s, c, WokenLoad(call), s.w.(ww := true)))
  {
    Extend(s, c, GO);
  }

  lemma DropReadRuns(s: State, c: nat, p: Phase, next: Next)
    requires Reachable(s) && c < |s.pcs| && s.pcs[c] == DropRead(p, next)
    ensures 1 <= s.w.readers && Reachable(DropReadStep(s, c, next))
  {
    Here(s, c);
    Extend(s, c, GO);
  }

  lemma DropWriteRuns(s: State, v: nat, c: nat, init: Phase, onUnlock: Phase, next: Next)
    requires Reachable(s) && c < |s.pcs| && s.pcs[c] == DropWrite(init, onUnlock, next)
    requires v <= ALL_BITS && s.w == Decode(v)
    ensures Bits(onUnlock) <= ALL_BITS && Reachable(DropWriteStep(s, c, init, onUnlock, next))
    ensures Leaves(s, DropWriteStep(s, c, init, onUnlock, next),
      Decode(if v == Bitwise(Or, Bits(init), LOCKED_BIT) then Bits(onUnlock) else v))
  {
    Extend(s, c, GO);
    var p := Bits(init);
    PhaseWord(init);
    PhaseWord(onUnlock);
    SetFlags(p);
    DecodeInjective(v, Bitwise(Or, p, LOCKED_BIT));
  }

  lemma DropWriteXorRuns(s: State, v: nat, c: nat, init: Phase, onUnlock: Phase, next: Next)
    requires Reachable(s) && c < |s.pcs| && s.pcs[c] == DropWriteXor(init, onUnlock, next)
    requires v <= ALL_BITS && s.w == Decode(v)
    ensures Bitwise(Xor, v, UnlockMask(init, onUnlock)) <= ALL_BITS
    ensures Reachable(DropWriteXorStep(s, c, init, onUnlock, next))
    ensures Leaves(s, DropWriteXorStep(s, c, init, onUnlock, next), Decode(Bitwise(Xor, v, UnlockMask(init, onUnlock))))
  {
    Extend(s, c, GO);
    UnlockXor(v, init, onUnlock);
  }

  lemma ConvertRuns(s: State, v: nat, c: nat, origin: Origin, init: Phase, onUnlock: Phase)
    requires Reachable(s) && c < |s.pcs| && s.pcs[c] == Convert(origin, init, onUnlock)
    requires v <= ALL_BITS && s.w == Decode(v)
    ensures Bitwise(Xor, v, ConvertMask(init, onUnlock)) <= ALL_BITS
    ensures Reachable(ConvertStep(s, c, origin, init, onUnlock))
    ensures Leaves(s, ConvertStep(s, c, origin, init, onUnlock), Decode(Bitwise(Xor, v, ConvertMask(init, onUnlock))))
  {
    Extend(s, c, GO);
    ConvertXorBits(v, init, onUnlock);
  }

  lemma TransferRuns(s: State, c: nat, cur: Word, next: Next)
    requires Reachable(s) && c < |s.pcs| && s.pcs[c] == Transfer(cur, next)
    ensures !cur.locked && cur.readers == 0 && HasWaiters(cur) && Reachable(TransferStep(s, c, cur, next))
  {
    AssertsHold(s, c);
    Extend(s, c, GO);
  }

  lemma HandXorRuns(s: State, c: nat, prefer: bool, cur: Word, next: Next)
    requires Reachable(s) && c < |s.pcs| && s.pcs[c] == HandXor(prefer, cur, next)
    ensures s.w.ww && !s.w.locked && s.w.readers == 0 && Reachable(HandXorStep(s, c, prefer, cur, next))
  {
    AssertsHold(s, c);
    Extend(s, c, GO);
  }

  lemma HandUnlockRuns(s: State, c: nat, prefer: bool, next: Next)
    requires Reachable(s) && c < |s.pcs| && s.pcs[c] == HandUnlock(prefer, next)
    ensures s.w.locked && Reachable(HandUnlockStep(s, c, prefer, next))
  {
    AssertsHold(s, c);
    Extend(s, c, GO);
  }

  lemma ReadersXorRuns(s: State, c: nat, unactivate: bool, next: Next)
    requires Reachable(s) && c < |s.pcs| && s.pcs[c] == ReadersXor(unactivate, next)
    ensures s.w.locked == unactivate && s.w.readers % 2 == 0 && Reachable(ReadersXorStep(s, c, unactivate, next))
  {
    AssertsHold(s, c);
    Extend(s, c, GO);
  }

  lemma ConvertXorRuns(s: State, c: nat, origin: Origin, p: Phase)
    requires Reachable(s) && c < |s.pcs| && s.pcs[c] == ConvertXor(origin, p)
    ensures Reachable(ConvertXorStep(s, c, origin, p))
  {
    Extend(s, c, GO);
  }

  lemma RemarkReaderRuns(s: State, c: nat, count: nat, after: After)
    requires Reachable(s) && c < |s.pcs| && s.pcs[c] == RemarkReader(count, after)
    ensures Reachable(MoveWord(s, c, Settle(count, after), s.w.(rw := true)))
  {
    Extend(s, c, GO);
  }

  lemma SettleRuns(s: State, c: nat, count: nat, after: After)
    requires Reachable(s) && c < |s.pcs| && s.pcs[c] == Settle(count, after)
    ensures count <= MAX_WAKED_READERS && MAX_WAKED_READERS - count < s.w.readers
    ensures Reachable(SettleStep(s, c, count, after))
  {
    Here(s, c);
    Extend(s, c, GO);
  }

  class Futex {
    var futex: nat
    var writerCount: nat
    var fairness: nat
    // The clients' program points and the watched transfer: what the proofs speak about.
    ghost var pcs: seq<Pc>
    ghost var watch: bool
    ghost var handoffs: nat

    ghost function Now(): State
      reads this
    {
      State(Decode(futex), writerCount, fairness, pcs, watch, handoffs)
    }

    ghost predicate Valid()
      reads this
    {
      futex <= ALL_BITS && Reachable(Now())
    }

    /** `SyncPhaseLocker::new`, for `n` clients that may come to use it. */
    constructor (p: Phase, ghost n: nat)
      ensures Valid() && Now() == Start(p, n)
    {
      futex, writerCount, fairness := Bits(p), 0, 0;
      pcs, watch, handoffs := seq(n, _ => Idle), false, 0;
      new;
      PhaseWord(p);
      StartReachable(p, n);
    }

    /** `get_phase_unique`, sync.rs:620-624: with nobody using the locker `Phase::from_bits` finds a phase. */
    method GetPhaseUnique() returns (p: Option<Phase>)
      requires Valid() && forall i: nat :: i < |pcs| ==> AtRest(pcs[i])
      ensures p == Some(Now().w.phase) && Now().w == Pure(Now().w.phase)
    {
      Quiescence(Now());
      PureWord(futex, Decode(futex).phase);
      p := FromBits(futex);
    }

    /** The clients move on to where they are in `t`. */
    ghost method Become(t: State)
      requires futex <= ALL_BITS && Leaves(Now(), t, Decode(futex)) && Reachable(t)
      modifies `pcs, `watch, `handoffs
      ensures Valid() && Now() == t
    {
      pcs, watch, handoffs := t.pcs, t.watch, t.handoffs;
    }

    // ---------- atomic operations ----------

    method CompareExchange(expected: nat, desired: nat, spurious: bool) returns (ok: bool, prev: nat)
      modifies `futex
      ensures prev == old(futex) && ok == (prev == expected && !spurious)
      ensures futex == if ok then desired else prev
    {
      prev := futex;
      ok := prev == expected && !spurious;
      if ok { futex := desired; }
    }

    method FetchXor(mask: nat) returns (prev: nat)
      modifies `futex
      ensures prev == old(futex) && futex == Bitwise(Xor, prev, mask)
    {
      prev := futex;
      futex := Bitwise(Xor, prev, mask);
    }

    method FetchSub(k: nat) returns (prev: nat)
      requires futex <= ALL_BITS && k <= ALL_BITS
      modifies `futex
      ensures prev == old(futex) && futex == WrapSub(prev, k)
    {
      prev := futex;
      futex := WrapSub(prev, k);
    }

    // ---------- locking ----------

    method FetchOr(mask: nat) returns (prev: nat)
      modifies `futex
      ensures prev == old(futex) && futex == Bitwise(Or, prev, mask)
    {
      prev := futex;
      futex := Bitwise(Or, prev, mask);
    }

    method FetchAnd(mask: nat) returns (prev: nat)
      modifies `futex
      ensures prev == old(futex) && futex == Bitwise(And, prev, mask)
    {
      prev := futex;
      futex := Bitwise(And, prev, mask);
    }

    // ---------- taking the lock ----------

    /** `optimistic_lock`, sync.rs:1043-1087: did the attempt on the hinted phase succeed? */
    method OptimisticLock(call: Call, spurious: bool, ghost c: nat) returns (ok: bool)
      requires Valid() && c < |pcs| && pcs[c] == Optimistic(call)
      modifies this
      ensures Valid() && Now() == OptimisticStep(old(Now()), c, call, spurious)
      ensures !call.how(call.hint).NoLock? ==> (ok <==> old(futex) == Bits(call.hint) && !spurious)
      ensures call.how(call.hint).NoLock? ==> (ok <==> call.how(Decode(old(futex)).phase).NoLock?)
    {
      ghost var t := OptimisticStep(Now(), c, call, spurious);
      OptimisticRuns(Now(), futex, c, call, spurious);
      var cur := Bits(call.hint);
      var x;
      match call.how(call.hint) {
        case NoLock => ok := call.how(PhaseOf(futex % 0x100)).NoLock?;
        case Write => ok, x := CompareExchange(cur, Bitwise(Or, cur, LOCKED_BIT), spurious);
        case Read => ok, x := CompareExchange(cur, cur + READER_UNITY, spurious);
      }
      Become(t);
    }

    /** The compare-exchange to `cur | LOCKED_BIT` when no reader is inside, sync.rs:900-913. */
    method LockFree(cur: nat, spurious: bool, ghost call: Call, ghost c: nat, ghost spin: bool) returns (ok: bool)
      requires Valid() && c < |pcs| && cur <= ALL_BITS && pcs[c] == SlowWrite(call, Decode(cur))
      modifies this
      ensures Valid() && Now() == SlowWriteStep(old(Now()), c, call, Decode(cur), spurious, spin)
      ensures ok <==> old(futex) == cur && !spurious
    {
      ghost var t := SlowWriteStep(Now(), c, call, Decode(cur), spurious, spin);
      LockFreeRuns(Now(), c, call, Decode(cur), spurious, spin);
      SetFlags(cur);
      DecodeInjective(futex, cur);
      var x;
      ok, x := CompareExchange(cur, Bitwise(Or, cur, LOCKED_BIT), spurious);
      Become(t);
    }

    /** The second attempt to take the write lock, sync.rs:771-784 (strong) and 840-853 (weak). */
    method LockFast(call: Call, cur: nat, spurious: bool, ghost c: nat) returns (ok: bool)
      requires Valid() && c < |pcs| && cur <= ALL_BITS && pcs[c] == FastWrite(call, Decode(cur))
      modifies this
      ensures Valid() && Now() == FastWriteStep(old(Now()), c, call, Decode(cur), spurious)
      ensures ok <==> old(futex) == cur && !(spurious && !call.trying)
    {
      ghost var t := FastWriteStep(Now(), c, call, Decode(cur), spurious);
      LockFastRuns(Now(), c, call, Decode(cur), spurious);
      SetFlags(cur);
      DecodeInjective(futex, cur);
      var x;
      ok, x := CompareExchange(cur, Bitwise(Or, cur, LOCKED_BIT), spurious && !call.trying);
      Become(t);
    }

    /** Locking while readers are inside, sync.rs:916-927. */
    method LockWhileReaders(cur: nat, spurious: bool, ghost call: Call, ghost c: nat, ghost spin: bool)
      returns (ok: bool)
      requires Valid() && c < |pcs| && cur <= ALL_BITS && pcs[c] == Announce(call, Decode(cur))
      modifies this
      ensures Valid() && Now() == AnnounceStep(old(Now()), c, call, Decode(cur), spurious, spin)
      ensures ok <==> old(futex) == cur && !spurious
    {
      ghost var t := AnnounceStep(Now(), c, call, Decode(cur), spurious, spin);
      AnnounceRuns(Now(), c, call, Decode(cur), spurious, spin);
      SetFlags(cur);
      DecodeInjective(futex, cur);
      var x;
      ok, x := CompareExchange(cur, Bitwise(Or, cur, LOCKED_BIT), spurious);
      Become(t);
    }

    /** The withdrawal of `wait_for_readers`, sync.rs:1200-1220. */
    method Withdrawal(cur: nat, spurious: bool, ghost call: Call, ghost c: nat) returns (ok: bool)
      requires Valid() && c < |pcs| && cur <= ALL_BITS && pcs[c] == Withdraw(call, Decode(cur))
      modifies this
      ensures Valid() && Now() == WithdrawStep(old(Now()), c, call, Decode(cur), spurious)
      ensures ok <==> old(futex) == cur && !spurious
    {
      ghost var t := WithdrawStep(Now(), c, call, Decode(cur), spurious);
      WithdrawRuns(Now(), c, call, Decode(cur), spurious);
      SetFlags(cur);
      var marked := Bitwise(Or, cur, WRITE_WAITER_BIT);
      UnsetLocked(marked);
      DecodeInjective(futex, cur);
      var x;
      ok, x := CompareExchange(cur, Bitwise(And, marked, Complement(LOCKED_BIT)), spurious);
      Become(t);
    }

    /** The compare-exchange of `read_lock`, sync.rs:1099-1107, and of `try_raw_lock`, sync.rs:790-803. */
    method ReadLock(cur: nat, spurious: bool, ghost site: Site, ghost c: nat, ghost spin: bool) returns (ok: bool)
      requires Valid() && c < |pcs| && cur <= ALL_BITS && pcs[c] == ReadCas(site, Decode(cur))
      modifies this
      ensures Valid() && Now() == ReadCasStep(old(Now()), c, site, Decode(cur), spurious, spin)
      ensures ok <==> old(futex) == cur && !spurious
    {
      ghost var t := ReadCasStep(Now(), c, site, Decode(cur), spurious, spin);
      ReadCasRuns(Now(), futex, c, site, cur, spurious, spin);
      var x;
      ok, x := CompareExchange(cur, cur + READER_UNITY, spurious);
      Become(t);
    }

    // ---------- announcing a waiter ----------

    /** sync.rs:973-986. */
    method AnnounceWriter(cur: nat, spurious: bool, ghost call: Call, ghost c: nat, ghost spin: bool) returns (ok: bool)
      requires Valid() && c < |pcs| && cur <= ALL_BITS && pcs[c] == MarkWriter(call, Decode(cur))
      modifies this
      ensures Valid() && Now() == MarkWriterStep(old(Now()), c, call, Decode(cur), spurious, spin)
      ensures ok <==> old(futex) == cur && !spurious
    {
      ghost var t := MarkWriterStep(Now(), c, call, Decode(cur), spurious, spin);
      MarkWriterRuns(Now(), c, call, Decode(cur), spurious, spin);
      SetFlags(cur);
      DecodeInjective(futex, cur);
      var x;
      ok, x := CompareExchange(cur, Bitwise(Or, cur, WRITE_WAITER_BIT), spurious);
      Become(t);
    }

    /** sync.rs:1005-1018 and 510-523. */
    method AnnounceReader(cur: nat, spurious: bool, ghost job: Job, ghost c: nat, ghost spin: bool) returns (ok: bool)
      requires Valid() && c < |pcs| && cur <= ALL_BITS && pcs[c] == MarkReader(job, Decode(cur))
      modifies this
      ensures Valid() && Now() == MarkReaderStep(old(Now()), c, job, Decode(cur), spurious, spin)
      ensures ok <==> old(futex) == cur && !spurious
    {
      ghost var t := MarkReaderStep(Now(), c, job, Decode(cur), spurious, spin);
      MarkReaderRuns(Now(), c, job, Decode(cur), spurious, spin);
      SetFlags(cur);
      DecodeInjective(futex, cur);
      var x;
      ok, x := CompareExchange(cur, Bitwise(Or, cur, READ_WAITER_BIT), spurious);
      Become(t);
    }

    // ---------- compare_and_wait_as_writer ----------

    /** futex.rs:65, with its overflow assertion; a process has fewer threads than `writer_count` can count. */
    method CountIn(cur: nat, ghost call: Call, ghost c: nat)
      requires Valid() && c < |pcs| < 0x1_0000_0000 && cur <= ALL_BITS && pcs[c] == CountWriter(call, Decode(cur))
      modifies this
      ensures Valid() && Now() == CountWriterStep(old(Now()), c, call, Decode(cur))
    {
      ghost var t := CountWriterStep(Now(), c, call, Decode(cur));
      CountRuns(Now(), c, call, Decode(cur));
      FlagTests(cur);
      assert Bitwise(And, cur, WRITE_WAITER_BIT) != 0;
      assert writerCount != ALL_BITS;
      writerCount := writerCount + 1;
      Become(t);
    }

    /** futex.rs:79-82 after a wake-up: must WRITE_WAITER_BIT be set again? */
    method CountOut(ghost call: Call, ghost c: nat) returns (remark: bool)
      requires Valid() && c < |pcs| && pcs[c] == WokenWriter(call)
      modifies this
      ensures Valid() && Now() == WokenWriterStep(old(Now()), c, call)
      ensures remark <==> pcs[c] == RemarkWriter(call)
    {
      ghost var t := WokenWriterStep(Now(), c, call);
      WokenRuns(Now(), c, call);
      assert writerCount != 0;
      remark := writerCount > 1;
      writerCount := writerCount - 1;
      Become(t);
    }

    /** futex.rs:79-82 when the kernel did not park. */
    method CountOutRefused(ghost call: Call, ghost c: nat)
      requires Valid() && c < |pcs| && pcs[c] == UncountWriter(call)
      modifies this
      ensures Valid() && Now() == UncountWriterStep(old(Now()), c, call)
    {
      ghost var t := UncountWriterStep(Now(), c, call);
      RefusedRuns(Now(), c, call);
      assert writerCount != 0;
      writerCount := writerCount - 1;
      Become(t);
    }

    /** futex.rs:83. */
    method RestoreWriterBit(ghost call: Call, ghost c: nat)
      requires Valid() && c < |pcs| && pcs[c] == RemarkWriter(call)
      modifies this
      ensures Valid() && Now() == MoveWord(old(Now()), c, WokenLoad(call), old(Now()).w.(ww := true))
    {
      ghost var t := MoveWord(Now(), c, WokenLoad(call), Decode(futex).(ww := true));
      RemarkWriterRuns(Now(), c, call);
      SetFlags(futex);
      var x := FetchOr(WRITE_WAITER_BIT);
      Become(t);
    }

    // ---------- releasing ----------

    /** `Drop for ReadLock`, sync.rs:479-491: the word to transfer, if this was the last reader. */
    method DropReadLock(ghost c: nat) returns (transfer: Option<nat>)
      requires Valid() && c < |pcs| && pcs[c].DropRead?
      modifies this
      ensures Valid() && Now() == DropReadStep(old(Now()), c, old(pcs[c].next))
      ensures transfer.Some? <==> pcs[c].Transfer?
      ensures transfer.Some? ==> transfer.value <= ALL_BITS && Decode(transfer.value) == pcs[c].cur
    {
      ghost var t := DropReadStep(Now(), c, pcs[c].next);
      DropReadRuns(Now(), c, pcs[c].p, pcs[c].next);
      TestsAgree(futex);
      SubUnits(futex, 1);
      var prev := FetchSub(READER_UNITY);
      if HasOneReaderBits(prev) && IsNotWriteLockedBits(prev) && HasWaitersBits(prev) {
        transfer := Some(prev - READER_UNITY);
      } else {
        transfer := None;
      }
      Become(t);
    }

    /** The compare-exchange of `Drop for Lock`, sync.rs:407-417. */
    method DropLockAlone(init: Phase, onUnlock: Phase, ghost next: Next, ghost c: nat) returns (ok: bool)
      requires Valid() && c < |pcs| && pcs[c] == DropWrite(init, onUnlock, next)
      modifies this
      ensures Valid() && Now() == DropWriteStep(old(Now()), c, init, onUnlock, next)
      ensures ok <==> old(futex) == Bitwise(Or, Bits(init), LOCKED_BIT)
    {
      ghost var t := DropWriteStep(Now(), c, init, onUnlock, next);
      DropWriteRuns(Now(), futex, c, init, onUnlock, next);
      var x;
      ok, x := CompareExchange(Bitwise(Or, Bits(init), LOCKED_BIT), Bits(onUnlock), false);
      Become(t);
    }

    /** sync.rs:426-430: the word that `transfer_lock` is called with, if there are waiters. */
    static method ToTransfer(prev: nat, xor: nat) returns (transfer: Option<nat>)
      requires prev <= ALL_BITS
      ensures transfer == if HasWaiters(Decode(prev)) then Some(Bitwise(Xor, prev, xor)) else None
    {
      WaitersTest(prev);
      if HasWaitersBits(prev) { transfer := Some(Bitwise(Xor, prev, xor)); } else { transfer := None; }
    }

    /** The xor of `Drop for Lock`, sync.rs:423-430. */
    method DropLock(init: Phase, onUnlock: Phase, ghost next: Next, ghost c: nat) returns (transfer: Option<nat>)
      requires Valid() && c < |pcs| && pcs[c] == DropWriteXor(init, onUnlock, next)
      modifies this
      ensures Valid() && Now() == DropWriteXorStep(old(Now()), c, init, onUnlock, next)
      ensures transfer.Some? <==> HasWaiters(old(Now()).w)
      ensures transfer.Some? ==> transfer.value == futex
    {
      ghost var t := DropWriteXorStep(Now(), c, init, onUnlock, next);
      DropWriteXorRuns(Now(), futex, c, init, onUnlock, next);
      var prev := FetchXor(UnlockMask(init, onUnlock));
      transfer := ToTransfer(prev, UnlockMask(init, onUnlock));
      Become(t);
    }

    /** `into_read_lock`, sync.rs:307-319: must readers be woken? */
    method IntoReadLock(init: Phase, onUnlock: Phase, ghost origin: Origin, ghost c: nat) returns (wake: bool)
      requires Valid() && c < |pcs| && pcs[c] == Convert(origin, init, onUnlock)
      modifies this
      ensures Valid() && Now() == ConvertStep(old(Now()), c, origin, init, onUnlock)
      ensures wake <==> old(Now()).w.rw
    {
      ghost var t := ConvertStep(Now(), c, origin, init, onUnlock);
      ConvertRuns(Now(), futex, c, origin, init, onUnlock);
      ReadWaiterTest(futex);
      var prev := FetchXor(ConvertMask(init, onUnlock));
      wake := Bitwise(And, prev, READ_WAITER_BIT) != 0;
      Become(t);
    }

    // ---------- transfer_lock ----------

    /** The entry of `transfer_lock` with its assertions, sync.rs:331-334: are writers preferred? */
    method PreferWakeOneWriter(cur: nat, ghost next: Next, ghost c: nat) returns (prefer: bool)
      requires Valid() && c < |pcs| && cur <= ALL_BITS && pcs[c] == Transfer(Decode(cur), next)
      modifies this
      ensures Valid() && Now() == TransferStep(old(Now()), c, Decode(cur), next)
      ensures prefer <==> fairness % READ_FAIRNESS_PERIOD != 0
    {
      ghost var t := TransferStep(Now(), c, Decode(cur), next);
      TransferRuns(Now(), c, Decode(cur), next);
      OwnedTest(cur);
      FlagTests(cur);
      assert Bitwise(And, cur, OWNED_BITS) == 0;
      assert Bitwise(And, cur, WAITER_BITS) != 0;
      prefer := fairness % READ_FAIRNESS_PERIOD != 0;
      Become(t);
    }

    /** Taking the lock for a writer to be woken, sync.rs:339-341 and 381-383. */
    method HandToWriter(cur: nat, ghost prefer: bool, ghost next: Next, ghost c: nat)
      requires Valid() && c < |pcs| && cur <= ALL_BITS && pcs[c] == HandXor(prefer, Decode(cur), next)
      modifies this
      ensures Valid() && Now() == HandXorStep(old(Now()), c, prefer, Decode(cur), next)
    {
      ghost var t := HandXorStep(Now(), c, prefer, Decode(cur), next);
      HandXorRuns(Now(), c, prefer, Decode(cur), next);
      OwnedTest(futex);
      FlagTests(futex);
      HandXorBits(futex);
      var prev := FetchXor(HandMask());
      assert Bitwise(And, prev, WRITE_WAITER_BIT) != 0;
      assert Bitwise(And, prev, OWNED_BITS) == 0;
      Become(t);
    }

    /** `wake_one_writer`, futex.rs:108-120; the kernel says whether it `found` a parked writer, `target`. */
    method WakeOneWriter(found: bool, ghost target: nat, ghost prefer: bool, ghost cur: Word, ghost next: Next,
                         ghost c: nat) returns (woken: bool)
      requires Valid() && c < |pcs| && pcs[c] == HandWake(prefer, cur, next)
      requires found ==> target < |pcs| && pcs[target].ParkedWriter?
      requires !found ==> forall i: nat :: i < |pcs| ==> !pcs[i].ParkedWriter?
      modifies this
      ensures Valid() && woken == found
      ensures found ==> Now() == WakeOneStep(old(Now()), c, next, target)
      ensures !found ==> Now() == WakeNoneStep(old(Now()), c, prefer, cur, next)
    {
      ghost var t;
      if found {
        t := WakeOneStep(Now(), c, next, target);
        WakeOneRuns(Now(), c, prefer, cur, next, target);
      } else {
        t := WakeNoneStep(Now(), c, prefer, cur, next);
        WakeNoneRuns(Now(), c, prefer, cur, next);
      }
      fairness := (fairness + 1) % 0x1_0000;
      Become(t);
      woken := found;
    }

    /** Nobody was woken: unlocking, sync.rs:362-367 and 390-397.  The word to transfer again, if any. */
    method UnlockUnused(ghost prefer: bool, ghost next: Next, ghost c: nat) returns (again: Option<nat>)
      requires Valid() && c < |pcs| && pcs[c] == HandUnlock(prefer, next)
      modifies this
      ensures Valid() && Now() == HandUnlockStep(old(Now()), c, prefer, next)
      ensures again.Some? <==> HasWaiters(old(Now()).w)
      ensures again.Some? ==> again.value == futex
    {
      ghost var t := HandUnlockStep(Now(), c, prefer, next);
      HandUnlockRuns(Now(), c, prefer, next);
      TestsAgree(futex);
      FlagTests(futex);
      UnsetLocked(futex);
      var cur := FetchAnd(Complement(LOCKED_BIT));
      assert Bitwise(And, cur, LOCKED_BIT) != 0;
      if HasNoWaitersBits(cur) {
        again := None;
      } else {
        again := Some(Bitwise(And, cur, Complement(LOCKED_BIT)));
      }
      Become(t);
    }

    // ---------- wake_readers ----------

    /** The xor of `wake_readers` when a hand-over ends with it, sync.rs:588-601. */
    method PrepareReaders(unactivate: bool, ghost next: Next, ghost c: nat)
      requires Valid() && c < |pcs| && pcs[c] == ReadersXor(unactivate, next)
      modifies this
      ensures Valid() && Now() == ReadersXorStep(old(Now()), c, unactivate, next)
    {
      ghost var t := ReadersXorStep(Now(), c, unactivate, next);
      ReadersXorRuns(Now(), c, unactivate, next);
      var toUnactivate := if unactivate then LOCKED_BIT else 0;
      WakeAsserts(futex, unactivate);
      WakeXorBits(futex, unactivate, false);
      var v := FetchXor(WakeMask(toUnactivate, READER_UNITY));
      assert Bitwise(And, v, toUnactivate) == toUnactivate;
      assert Bitwise(And, v, READER_UNITY) != READER_UNITY;
      assert Bitwise(And, Bitwise(Xor, v, toUnactivate), LOCKED_BIT) == 0;
      Become(t);
    }

    /** The xor of `wake_readers` when it converts, sync.rs:588-601; the assertion of line 601 may fail here. */
    method PrepareReadersConverting(ghost origin: Origin, ghost p: Phase, ghost c: nat)
      requires Valid() && c < |pcs| && pcs[c] == ConvertXor(origin, p)
      modifies this
      ensures Valid() && Now() == ConvertXorStep(old(Now()), c, origin, p)
    {
      ghost var t := ConvertXorStep(Now(), c, origin, p);
      ConvertXorRuns(Now(), c, origin, p);
      WakeXorBits(futex, false, true);
      var v := FetchXor(WakeMask(0, 0));
      Become(t);
    }

    /** `wake_readers` of the futex, futex.rs:90-103; the kernel wakes `woken`. */
    method WakeParkedReaders(count: nat, ghost woken: set<nat>, ghost after: After, ghost c: nat)
      returns (remark: bool)
      requires Valid() && c < |pcs| && pcs[c] == WakeReaders(after)
      requires Enabled(Now(), c, WakeSet(woken)) && count == |woken|
      modifies this
      ensures Valid() && Now() == WakeReadersStep(old(Now()), c, after, woken)
      ensures remark <==> count == MAX_WAKED_READERS
    {
      ghost var t := WakeReadersStep(Now(), c, after, woken);
      WakeReadersRuns(Now(), c, after, woken);
      fairness := 1;
      remark := count == MAX_WAKED_READERS;
      Become(t);
    }

    /** futex.rs:103-105. */
    method RestoreReaderBit(ghost count: nat, ghost after: After, ghost c: nat)
      requires Valid() && c < |pcs| && pcs[c] == RemarkReader(count, after)
      modifies this
      ensures Valid() && Now() == MoveWord(old(Now()), c, Settle(count, after), old(Now()).w.(rw := true))
    {
      ghost var t := MoveWord(Now(), c, Settle(count, after), Decode(futex).(rw := true));
      RemarkReaderRuns(Now(), c, count, after);
      SetFlags(futex);
      var x := FetchOr(READ_WAITER_BIT);
      Become(t);
    }

    /** The settling subtraction, sync.rs:605-606. */
    method SettleReaders(count: nat, ghost after: After, ghost c: nat)
      requires Valid() && c < |pcs| && pcs[c] == Settle(count, after)
      modifies this
      ensures Valid() && Now() == SettleStep(old(Now()), c, count, after)
    {
      ghost var t := SettleStep(Now(), c, count, after);
      SettleRuns(Now(), c, count, after);
      SubUnits(futex, MAX_WAKED_READERS - count);
      var x := FetchSub(READER_OVERF - READER_UNITY * count);
      Become(t);
    }
  }
}
