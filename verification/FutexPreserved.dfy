/** Every step of the futex phase locker preserves the invariant. */
module FutexPreserved {
  import opened Phases
  import opened FutexProtocol
  import opened FutexInvariant

  function B(b: bool): nat { if b then 1 else 0 }

  /** The word and the counters move with the profile of the one client that steps. */
  predicate Balanced(s: State, t: State, a: Profile, b: Profile) {
    && t.w.readers + a.units == s.w.readers + b.units
    && t.w.readers < 2 * MAX_WAKED_READERS
    && B(t.w.locked) + a.token == B(s.w.locked) + b.token
    && B(AgentNeeded(t.w)) + a.agent == B(AgentNeeded(s.w)) + b.agent
    && t.writerCount + a.counted == s.writerCount + b.counted
    && (b.waker > a.waker ==> b.waker <= 1 && Sum(Waker, s.pcs) == 0)
  }

  /** No parked client loses the reason for which it will be woken. */
  predicate DutyKept(s: State, t: State, a: Profile, b: Profile) {
    && (s.w.rw && !t.w.rw ==> b.readerDuty > 0)
    && (a.readerDuty > 0 ==> t.w.rw || b.readerDuty > 0)
    && (s.w.ww && !t.w.ww ==> b.writerDuty > 0)
    && (a.writerDuty > 0 ==>
          t.w.ww || b.writerDuty > 0 || forall i: nat :: i < |s.pcs| ==> !s.pcs[i].ParkedWriter?)
  }

  /** The stepping client is parked only under its waiter bit, and borrows from a live guard. */
  ghost predicate NewOk(s: State, t: State, c: nat, after: Pc)
    requires c < |s.pcs|
  {
    && (after.ParkedReader? ==> t.w.rw)
    && (after.ParkedWriter? ==> t.w.ww)
    && (CloneSource(after).None? || CloneSource(after) == CloneSource(s.pcs[c])
        || (CloneSource(after).value < |s.pcs| && CloneSource(after).value != c && s.pcs[CloneSource(after).value].HoldRead?))
    && (s.pcs[c].HoldRead? ==> after.HoldRead? || !Borrowed(s.pcs, c))
  }

  /** Every client but `c` is in order in `t`. */
  ghost predicate OthersOk(s: State, t: State, c: nat) {
    forall i: nat {:trigger s.pcs[i]} :: i < |s.pcs| && i != c ==> PcOk(t.w, s.pcs[i]) && WatchOk(t, s.pcs[i])
  }

  /** The program points `after` of a client that may be in order in `t`. */
  ghost predicate MayBe(t: State, after: Pc) {
    forall pc :: pc == after ==> PcOk(t.w, pc) && WatchOk(t, pc)
  }

  lemma BorrowsPreserved(s: State, t: State, c: nat, after: Pc)
    requires BorrowsOk(s.pcs) && c < |s.pcs| && t.pcs == s.pcs[c := after]
    requires NewOk(s, t, c, after)
    ensures BorrowsOk(t.pcs)
  {
    forall i: nat | i < |t.pcs| && CloneSource(t.pcs[i]).Some?
      ensures CloneSource(t.pcs[i]).value < |t.pcs| && t.pcs[CloneSource(t.pcs[i]).value].HoldRead?
    {
      assert CloneSource(t.pcs[i]).value == c && i != c ==> CloneSource(s.pcs[i]) == Some(c);
    }
  }

  lemma CountsPreserved(s: State, t: State, c: nat, after: Pc, a: Profile, b: Profile)
    requires CountsOk(s) && c < |s.pcs| && t.pcs == s.pcs[c := after]
    requires ProfileOf(s.pcs[c]) == a && ProfileOf(after) == b
    requires Balanced(s, t, a, b)
    ensures CountsOk(t)
  {
    SumUpdate(Units, s.pcs, c, after);
    SumUpdate(Token, s.pcs, c, after);
    SumUpdate(Agent, s.pcs, c, after);
    SumUpdate(Counted, s.pcs, c, after);
    SumUpdate(Waker, s.pcs, c, after);
    SumAtLeast(Waker, s.pcs, c);
  }

  lemma ClientsPreserved(s: State, t: State, c: nat, after: Pc, a: Profile, b: Profile)
    requires Inv(s) && c < |s.pcs| && t.pcs == s.pcs[c := after]
    requires ProfileOf(s.pcs[c]) == a && ProfileOf(after) == b && DutyKept(s, t, a, b)
    requires NewOk(s, t, c, after) && MayBe(t, after)
    requires OthersOk(s, t, c)
    ensures ClientsOk(t)
  {
    DutyPreserved(s, t, c, after, a, b);
    forall i: nat | i < |t.pcs|
      ensures ClientOk(t, i)
    {
      assert i != c ==> t.pcs[i] == s.pcs[i];
    }
  }

  /** The invariant is preserved when the step of `c` is balanced and leaves every client in order. */
  lemma Preserve(s: State, t: State, c: nat, after: Pc, a: Profile, b: Profile)
    requires Inv(s) && c < |s.pcs| && t.pcs == s.pcs[c := after]
    requires ProfileOf(s.pcs[c]) == a && ProfileOf(after) == b
    requires Balanced(s, t, a, b) && DutyKept(s, t, a, b)
    requires NewOk(s, t, c, after) && MayBe(t, after)
    requires OthersOk(s, t, c)
    requires FairOk(t) && t.fairness < 0x1_0000
    ensures Inv(t)
  {
    CountsPreserved(s, t, c, after, a, b);
    BorrowsPreserved(s, t, c, after);
    ClientsPreserved(s, t, c, after, a, b);
  }

  lemma DutyPreserved(s: State, t: State, c: nat, after: Pc, a: Profile, b: Profile)
    requires Inv(s) && c < |s.pcs| && t.pcs == s.pcs[c := after]
    requires ProfileOf(s.pcs[c]) == a && ProfileOf(after) == b && DutyKept(s, t, a, b)
    ensures s.w.rw || Sum(ReaderDuty, s.pcs) > 0 ==> t.w.rw || Sum(ReaderDuty, t.pcs) > 0
    ensures (s.w.ww || Sum(WriterDuty, s.pcs) > 0) && (exists i: nat :: i < |s.pcs| && s.pcs[i].ParkedWriter?) ==>
      t.w.ww || Sum(WriterDuty, t.pcs) > 0
  {
    SumUpdate(ReaderDuty, s.pcs, c, after);
    SumUpdate(WriterDuty, s.pcs, c, after);
    SumAtLeast(ReaderDuty, t.pcs, c);
    SumAtLeast(WriterDuty, t.pcs, c);
  }

  // ---------- steps that leave the word alone ----------


  /** A step that only moves the client's program point, without changing what it is counted for. */
  lemma PreserveMove(s: State, c: nat, after: Pc)
    requires Inv(s) && c < |s.pcs|
    requires ProfileOf(s.pcs[c]) == ProfileOf(after)
    requires NewOk(s, Move(s, c, after), c, after) && MayBe(Move(s, c, after), after)
    ensures Inv(Move(s, c, after))
  {
    var t := Move(s, c, after);
    OthersMarked(s, t, c);
    Preserve(s, t, c, after, ProfileOf(after), ProfileOf(after));
  }

  /** A program point that owns nothing, is not parked and is not watched. */
  predicate Light(pc: Pc) {
    && ProfileOf(pc) == NOTHING
    && !pc.ParkedReader? && !pc.ParkedWriter? && !pc.HoldRead?
    && !pc.Transfer? && !pc.HandXor? && !pc.HandWake? && !pc.HandUnlock?
  }

  lemma PreserveLight(s: State, c: nat, after: Pc)
    requires Inv(s) && c < |s.pcs|
    requires Light(s.pcs[c]) && Light(after) && PcOk(s.w, after)
    requires CloneSource(after).Some? ==> CloneSource(after) == CloneSource(s.pcs[c])
    ensures Inv(Move(s, c, after))
  {
    PreserveMove(s, c, after);
  }

  lemma OnWaitOk(w: Word, call: Call, cur: Word)
    requires !Free(cur)
    ensures PcOk(w, OnWait(call, cur)) && Light(OnWait(call, cur)) && CloneSource(OnWait(call, cur)).None?
  {
  }

  lemma SlowLoopOk(w: Word, call: Call, spin: bool)
    ensures PcOk(w, SlowLoop(call, w, spin)) && Light(SlowLoop(call, w, spin))
    ensures CloneSource(SlowLoop(call, w, spin)).None?
  {
    if !Free(w) { OnWaitOk(w, call, w); }
  }

  lemma SecondAttemptOk(w: Word, call: Call)
    ensures PcOk(w, SecondAttempt(call, w)) && Light(SecondAttempt(call, w))
    ensures CloneSource(SecondAttempt(call, w)).None?
  {
  }

  lemma CloneBlockedOk(w: Word, src: nat, cur: Word, spin: bool)
    requires cur.readers != 0
    ensures PcOk(w, CloneBlocked(src, cur, spin)) && Light(CloneBlocked(src, cur, spin))
    ensures CloneSource(CloneBlocked(src, cur, spin)) == Some(src)
  {
  }

  lemma CloneLoopOk(w: Word, src: nat, spin: bool)
    ensures PcOk(w, CloneLoop(src, w, spin)) && Light(CloneLoop(src, w, spin))
    ensures CloneSource(CloneLoop(src, w, spin)) == Some(src)
  {
    if ReadersMax(w) { CloneBlockedOk(w, src, w, spin); }
  }

  function SiteSource(site: Site): Option<nat> { if site.Cloning? then Some(site.src) else None }

  lemma ReloadedOk(w: Word, site: Site, spin: bool)
    requires SiteOk(w, site)
    ensures PcOk(w, Reloaded(site, w, spin)) && Light(Reloaded(site, w, spin))
    ensures CloneSource(Reloaded(site, w, spin)) == SiteSource(site)
  {
    match site
    case Slow(call) => if !ReadLockable(w) { OnWaitOk(w, call, w); }
    case Cloning(src) => if ReadersMax(w) { CloneBlockedOk(w, src, w, spin); }
    case _ =>
  }

  // ---------- how a change of the word leaves the other clients in order ----------

  predicate SameHistory(s: State, t: State) {
    t.watch == s.watch && t.handoffs == s.handoffs && t.fairness == s.fairness
  }

  /** Waiter bits only grow; LOCKED_BIT may change; fewer readers. */
  lemma OthersMarked(s: State, t: State, c: nat)
    requires Inv(s) && SameHistory(s, t)
    requires t.w.phase == s.w.phase && t.w.readers <= s.w.readers
    requires (s.w.rw ==> t.w.rw) && (s.w.ww ==> t.w.ww)
    ensures OthersOk(s, t, c)
  {
    forall i: nat | i < |s.pcs| && i != c
      ensures PcOk(t.w, s.pcs[i]) && WatchOk(t, s.pcs[i])
    {
    }
  }

  /** One more reader: readers are already inside, or the word is free. */
  lemma OthersJoined(s: State, t: State, c: nat)
    requires Inv(s) && SameHistory(s, t) && c < |s.pcs|
    requires t.w == s.w.(readers := s.w.readers + 1)
    requires (s.w.readers != 0 && !ReadersMax(s.w)) || Free(s.w)
    ensures OthersOk(s, t, c)
  {
    forall i: nat | i < |s.pcs| && i != c
      ensures PcOk(t.w, s.pcs[i]) && WatchOk(t, s.pcs[i])
    {
      SumAtLeast(Token, s.pcs, i);
      SumAtLeast(Agent, s.pcs, i);
      SumAtLeast(Units, s.pcs, i);
    }
  }

  /** The owner changes the phase and gives up LOCKED_BIT, possibly for a unit of the reader field. */
  lemma OthersPhase(s: State, t: State, c: nat)
    requires Inv(s) && SameHistory(s, t) && c < |s.pcs|
    requires Weight(Token, s.pcs[c]) == 1 && s.w.readers == 0
    requires Advances(s.w.phase, t.w.phase)
    requires t.w.rw == s.w.rw && t.w.ww == s.w.ww
    ensures OthersOk(s, t, c)
  {
    Others(Token, s.pcs, c);
    forall i: nat | i < |s.pcs| && i != c
      ensures PcOk(t.w, s.pcs[i]) && WatchOk(t, s.pcs[i])
    {
      SumAtLeast(Agent, s.pcs, i);
      SumAtLeast(Units, s.pcs, i);
    }
  }

  /** The agent of a hand-over takes LOCKED_BIT and clears WRITE_WAITER. */
  lemma OthersHandXor(s: State, t: State, c: nat)
    requires Inv(s) && SameHistory(s, t) && c < |s.pcs|
    requires Weight(Agent, s.pcs[c]) == 1
    requires t.w.phase == s.w.phase && t.w.readers == s.w.readers && t.w.rw == s.w.rw
    ensures OthersOk(s, t, c)
  {
    Others(Agent, s.pcs, c);
    forall i: nat | i < |s.pcs| && i != c
      ensures PcOk(t.w, s.pcs[i]) && WatchOk(t, s.pcs[i])
    {
    }
  }

  /** READ_WAITER is cleared, and the reader field raised, by the only waker of readers. */
  lemma OthersConvertXor(s: State, t: State, c: nat)
    requires Inv(s) && c < |s.pcs| && !t.watch && s.w.readers > 0
    requires s.pcs[c].ConvertXor?
    requires t.w.phase == s.w.phase && t.w.ww == s.w.ww
    ensures OthersOk(s, t, c)
  {
    Others(Waker, s.pcs, c);
    forall i: nat | i < |s.pcs| && i != c
      ensures PcOk(t.w, s.pcs[i]) && WatchOk(t, s.pcs[i])
    {
      SumAtLeast(Agent, s.pcs, i);
    }
  }

  /** Beside a client about to wake readers nobody has the lock, a unit or the duty to hand over. */
  lemma BesideReadersXor(s: State, c: nat, i: nat)
    requires CountsOk(s) && c < |s.pcs| && s.pcs[c].ReadersXor? && s.w.readers == 0 && i < |s.pcs| && i != c
    ensures ProfileOf(s.pcs[i]).token == ProfileOf(s.pcs[i]).agent == ProfileOf(s.pcs[i]).units == 0
  {
    Others(Token, s.pcs, c);
    Others(Agent, s.pcs, c);
    SumAtLeast(Units, s.pcs, i);
    assert Weight(Token, s.pcs[c]) + Weight(Agent, s.pcs[c]) == 1;
    assert Sum(Token, s.pcs) + Sum(Agent, s.pcs) <= 1;
  }

  lemma IdleUnderXor(s: State, t: State, pc: Pc)
    requires ProfileOf(pc).token == ProfileOf(pc).agent == ProfileOf(pc).units == 0
    requires PcOk(s.w, pc) && !t.watch && t.w.phase == s.w.phase
    ensures PcOk(t.w, pc) && WatchOk(t, pc)
  {
  }

  lemma OthersReadersXor(s: State, t: State, c: nat)
    requires Inv(s) && c < |s.pcs| && !t.watch && s.w.readers == 0
    requires s.pcs[c].ReadersXor?
    requires t.w.phase == s.w.phase && t.w.ww == s.w.ww
    ensures OthersOk(s, t, c)
  {
    forall i: nat | i < |s.pcs| && i != c
      ensures PcOk(t.w, s.pcs[i]) && WatchOk(t, s.pcs[i])
    {
      BesideReadersXor(s, c, i);
      IdleUnderXor(s, t, s.pcs[i]);
    }
  }

  // ---------- acquiring ----------

  lemma PreserveLock(s: State, c: nat, after: Pc)
    requires Inv(s) && c < |s.pcs|
    requires Light(s.pcs[c]) && CloneSource(s.pcs[c]).None?
    requires WriteLockable(s.w)
    requires var t := MoveWord(s, c, after, s.w.(locked := true)); PcOk(t.w, after)
    requires after.HoldWrite? || after.WaitReaders?
    ensures Inv(MoveWord(s, c, after, s.w.(locked := true)))
  {
    var t := MoveWord(s, c, after, s.w.(locked := true));
    OthersMarked(s, t, c);
    Preserve(s, t, c, after, NOTHING, OWNER);
  }

  lemma PreserveJoin(s: State, c: nat, after: Pc)
    requires Inv(s) && c < |s.pcs|
    requires Light(s.pcs[c]) && after.HoldRead? && PcOk(s.w, after)
    requires (s.w.readers != 0 && !ReadersMax(s.w)) || Free(s.w)
    ensures Inv(MoveWord(s, c, after, s.w.(readers := s.w.readers + 1)))
  {
    var t := MoveWord(s, c, after, s.w.(readers := s.w.readers + 1));
    OthersJoined(s, t, c);
    Preserve(s, t, c, after, NOTHING, READER);
  }

  lemma OptimisticOk(s: State, c: nat, call: Call, spurious: bool)
    requires Inv(s) && c < |s.pcs| && s.pcs[c] == Optimistic(call)
    ensures Inv(OptimisticStep(s, c, call, spurious))
  {
    if !call.how(call.hint).NoLock? && Swaps(s, Pure(call.hint), spurious) {
      if call.how(call.hint).Write? {
        PreserveLock(s, c, HoldWrite(call, call.hint, call.hint));
      } else {
        PreserveJoin(s, c, HoldRead(FromCall(call), call.hint));
      }
    } else if call.how(call.hint).NoLock? && call.how(s.w.phase).NoLock? {
      PreserveLight(s, c, AnsweredNone(call, s.w.phase));
    } else {
      SecondAttemptOk(s.w, call);
      PreserveLight(s, c, SecondAttempt(call, s.w));
    }
  }

  lemma FastWriteOk(s: State, c: nat, call: Call, cur: Word, spurious: bool)
    requires Inv(s) && c < |s.pcs| && s.pcs[c] == FastWrite(call, cur)
    ensures Inv(FastWriteStep(s, c, call, cur, spurious))
  {
    if Swaps(s, cur, spurious && !call.trying) {
      PreserveLock(s, c, HoldWrite(call, cur.phase, cur.phase));
    } else {
      PreserveLight(s, c, GiveUp(call));
    }
  }

  /** A failed compare-exchange sends the client back to the loop head. */
  lemma BackToLoop(s: State, c: nat, call: Call, spin: bool)
    requires Inv(s) && c < |s.pcs| && Light(s.pcs[c])
    ensures Inv(Move(s, c, SlowLoop(call, s.w, spin)))
  {
    SlowLoopOk(s.w, call, spin);
    PreserveLight(s, c, SlowLoop(call, s.w, spin));
  }

  lemma SlowWriteOk(s: State, c: nat, call: Call, cur: Word, spurious: bool, spin: bool)
    requires Inv(s) && c < |s.pcs| && s.pcs[c] == SlowWrite(call, cur)
    ensures Inv(SlowWriteStep(s, c, call, cur, spurious, spin))
  {
    if Swaps(s, cur, spurious) {
      PreserveLock(s, c, HoldWrite(call, cur.phase, cur.phase));
    } else {
      BackToLoop(s, c, call, spin);
    }
  }

  lemma AnnounceOk(s: State, c: nat, call: Call, cur: Word, spurious: bool, spin: bool)
    requires Inv(s) && c < |s.pcs| && s.pcs[c] == Announce(call, cur)
    ensures Inv(AnnounceStep(s, c, call, cur, spurious, spin))
  {
    if Swaps(s, cur, spurious) {
      PreserveLock(s, c, WaitReaders(call));
    } else {
      BackToLoop(s, c, call, spin);
    }
  }

  /** While a clone is in progress the cloned guard keeps the reader field non-zero. */
  lemma ClonedIsInside(s: State, c: nat)
    requires Inv(s) && c < |s.pcs| && CloneSource(s.pcs[c]).Some?
    ensures s.w.readers != 0
  {
    SumAtLeast(Units, s.pcs, CloneSource(s.pcs[c]).value);
  }

  lemma ReadCasOk(s: State, c: nat, site: Site, cur: Word, spurious: bool, spin: bool)
    requires Inv(s) && c < |s.pcs| && s.pcs[c] == ReadCas(site, cur)
    ensures Inv(ReadCasStep(s, c, site, cur, spurious, spin))
  {
    if Swaps(s, cur, spurious) {
      if site.Cloning? { ClonedIsInside(s, c); }
      PreserveJoin(s, c, Acquired(site, cur.phase));
    } else if site.Try? {
      ReloadedOk(s.w, site, spin);
      PreserveLight(s, c, Reloaded(site, s.w, spin));
    } else {
      PreserveLight(s, c, ReadReload(site));
    }
  }

  lemma ReadReloadOk(s: State, c: nat, site: Site, spin: bool)
    requires Inv(s) && c < |s.pcs| && s.pcs[c] == ReadReload(site)
    ensures Inv(Move(s, c, Reloaded(site, s.w, spin)))
  {
    ReloadedOk(s.w, site, spin);
    PreserveLight(s, c, Reloaded(site, s.w, spin));
  }

  lemma CloneLoadOk(s: State, c: nat, src: nat, spin: bool)
    requires Inv(s) && c < |s.pcs| && s.pcs[c] == CloneLoad(src)
    ensures Inv(Move(s, c, CloneLoop(src, s.w, spin)))
  {
    CloneLoopOk(s.w, src, spin);
    PreserveLight(s, c, CloneLoop(src, s.w, spin));
  }

  lemma BeginCloneOk(s: State, c: nat, src: nat)
    requires Inv(s) && c < |s.pcs| && s.pcs[c].Idle? && src < |s.pcs| && s.pcs[src].HoldRead?
    ensures Inv(Move(s, c, CloneLoad(src)))
  {
    PreserveMove(s, c, CloneLoad(src));
  }

  // ---------- announcing, waiting, parking ----------

  lemma PreserveMark(s: State, c: nat, after: Pc, w: Word)
    requires Inv(s) && c < |s.pcs|
    requires w == s.w.(rw := true) || w == s.w.(ww := true)
    requires AgentNeeded(w) == AgentNeeded(s.w)
    requires Light(s.pcs[c]) && Light(after) && PcOk(w, after) && CloneSource(after) == CloneSource(s.pcs[c])
    ensures Inv(MoveWord(s, c, after, w))
  {
    OthersMarked(s, MoveWord(s, c, after, w), c);
    Preserve(s, MoveWord(s, c, after, w), c, after, NOTHING, NOTHING);
  }

  lemma MarkWriterOk(s: State, c: nat, call: Call, cur: Word, spurious: bool, spin: bool)
    requires Inv(s) && c < |s.pcs| && s.pcs[c] == MarkWriter(call, cur)
    ensures Inv(MarkWriterStep(s, c, call, cur, spurious, spin))
  {
    if Swaps(s, cur, spurious) {
      PreserveMark(s, c, CountWriter(call, cur.(ww := true)), s.w.(ww := true));
    } else {
      BackToLoop(s, c, call, spin);
    }
  }

  lemma MarkReaderOk(s: State, c: nat, job: Job, cur: Word, spurious: bool, spin: bool)
    requires Inv(s) && c < |s.pcs| && s.pcs[c] == MarkReader(job, cur)
    ensures Inv(MarkReaderStep(s, c, job, cur, spurious, spin))
  {
    if Swaps(s, cur, spurious) {
      PreserveMark(s, c, ParkReader(job, cur.(rw := true)), s.w.(rw := true));
    } else if job.Lock? {
      BackToLoop(s, c, job.call, spin);
    } else {
      CloneLoopOk(s.w, job.src, spin);
      PreserveLight(s, c, CloneLoop(job.src, s.w, spin));
    }
  }

  lemma WaitReadersOk(s: State, c: nat, call: Call, spin: bool)
    requires Inv(s) && c < |s.pcs| && s.pcs[c] == WaitReaders(call)
    ensures Inv(WaitReadersStep(s, c, call, spin))
  {
    if s.w.readers == 0 {
      PreserveMove(s, c, HoldWrite(call, s.w.phase, s.w.phase));
    } else if spin {
      PreserveMove(s, c, WaitReaders(call));
    } else {
      PreserveMove(s, c, Withdraw(call, s.w));
    }
  }

  /** The announced writer withdraws: readers are still inside and WRITE_WAITER tells the last of them. */
  lemma PreserveWithdraw(s: State, c: nat, call: Call)
    requires Inv(s) && c < |s.pcs| && s.pcs[c].Withdraw? && s.pcs[c].call == call && s.w.readers != 0
    ensures var w := s.w.(ww := true, locked := false); Inv(MoveWord(s, c, OnWait(call, w), w))
  {
    var w := s.w.(ww := true, locked := false);
    var after := OnWait(call, w);
    OnWaitOk(w, call, w);
    SumAtLeast(Token, s.pcs, c);
    OthersMarked(s, MoveWord(s, c, after, w), c);
    Preserve(s, MoveWord(s, c, after, w), c, after, OWNER, NOTHING);
  }

  lemma WithdrawOk(s: State, c: nat, call: Call, cur: Word, spurious: bool)
    requires Inv(s) && c < |s.pcs| && s.pcs[c] == Withdraw(call, cur)
    ensures Inv(WithdrawStep(s, c, call, cur, spurious))
  {
    if Swaps(s, cur, spurious) {
      PreserveWithdraw(s, c, call);
    } else if s.w.readers == 0 {
      PreserveMove(s, c, HoldWrite(call, s.w.phase, s.w.phase));
    } else {
      PreserveMove(s, c, Withdraw(call, s.w));
    }
  }

  /** `writer_count` moves with the client that is counted. */
  lemma PreserveCount(s: State, c: nat, after: Pc, writerCount: nat)
    requires Inv(s) && c < |s.pcs|
    requires var a, b := ProfileOf(s.pcs[c]), ProfileOf(after);
      && a.(counted := b.counted, writerDuty := b.writerDuty) == b
      && writerCount + a.counted == s.writerCount + b.counted
      && (a.writerDuty > b.writerDuty ==> forall i: nat :: i < |s.pcs| ==> !s.pcs[i].ParkedWriter?)
    requires !s.pcs[c].HoldRead? && !after.ParkedWriter? && !after.ParkedReader? && CloneSource(after).None?
    requires PcOk(s.w, after) && WatchOk(s, after)
    ensures Inv(Move(s, c, after).(writerCount := writerCount))
  {
    var t := Move(s, c, after).(writerCount := writerCount);
    OthersMarked(s, t, c);
    Preserve(s, t, c, after, ProfileOf(s.pcs[c]), ProfileOf(after));
  }

  lemma CountWriterOk(s: State, c: nat, call: Call, cur: Word)
    requires Inv(s) && c < |s.pcs| && s.pcs[c] == CountWriter(call, cur)
    ensures Inv(CountWriterStep(s, c, call, cur))
  {
    PreserveCount(s, c, ParkWriter(call, cur), s.writerCount + 1);
  }

  lemma UncountWriterOk(s: State, c: nat, call: Call)
    requires Inv(s) && c < |s.pcs| && s.pcs[c] == UncountWriter(call)
    ensures Inv(UncountWriterStep(s, c, call))
  {
    SumAtLeast(Counted, s.pcs, c);
    PreserveCount(s, c, SlowLoad(call), s.writerCount - 1);
  }

  /** If `writer_count` was one, the woken writer was the only one counted, so none is parked. */
  lemma NoneParkedBehind(s: State, c: nat)
    requires Inv(s) && c < |s.pcs| && s.pcs[c].WokenWriter?
    ensures s.writerCount >= 1
    ensures s.writerCount == 1 ==> forall i: nat :: i < |s.pcs| ==> !s.pcs[i].ParkedWriter?
  {
    Others(Counted, s.pcs, c);
  }

  lemma WokenWriterOk(s: State, c: nat, call: Call)
    requires Inv(s) && c < |s.pcs| && s.pcs[c] == WokenWriter(call)
    ensures Inv(WokenWriterStep(s, c, call))
  {
    NoneParkedBehind(s, c);
    if s.writerCount > 1 {
      PreserveCount(s, c, RemarkWriter(call), s.writerCount - 1);
    } else {
      PreserveCount(s, c, WokenLoad(call), s.writerCount - 1);
    }
  }

  lemma RemarkWriterOk(s: State, c: nat, call: Call)
    requires Inv(s) && c < |s.pcs| && s.pcs[c] == RemarkWriter(call)
    ensures Inv(MoveWord(s, c, WokenLoad(call), s.w.(ww := true)))
  {
    SumAtLeast(Token, s.pcs, c);
    var t := MoveWord(s, c, WokenLoad(call), s.w.(ww := true));
    OthersMarked(s, t, c);
    Preserve(s, t, c, WokenLoad(call), OWNER.(writerDuty := 1), OWNER);
  }

  lemma ParkWriterOk(s: State, c: nat, call: Call, cur: Word)
    requires Inv(s) && c < |s.pcs| && s.pcs[c] == ParkWriter(call, cur)
    ensures Inv(ParkWriterStep(s, c, call, cur))
  {
    PreserveMove(s, c, if s.w == cur then ParkedWriter(call) else UncountWriter(call));
  }

  lemma ParkReaderOk(s: State, c: nat, job: Job, cur: Word)
    requires Inv(s) && c < |s.pcs| && s.pcs[c] == ParkReader(job, cur)
    ensures Inv(ParkReaderStep(s, c, job, cur))
  {
    PreserveMove(s, c, if s.w == cur then ParkedReader(job) else AfterParkFailed(job));
  }

  lemma WokenReaderOk(s: State, c: nat, job: Job)
    requires Inv(s) && c < |s.pcs| && s.pcs[c] == WokenReader(job)
    ensures Inv(Move(s, c, ReaderAwake(job, s.w.phase)))
  {
    PreserveMove(s, c, ReaderAwake(job, s.w.phase));
  }

  lemma WokenLoadOk(s: State, c: nat, call: Call)
    requires Inv(s) && c < |s.pcs| && s.pcs[c] == WokenLoad(call)
    ensures Inv(Move(s, c, WriterAwake(call, s.w.phase)))
  {
    PreserveMove(s, c, WriterAwake(call, s.w.phase));
  }

  // ---------- guards: plan, release, convert ----------

  lemma DropGuardOk(s: State, c: nat, p: Phase)
    requires Inv(s) && c < |s.pcs| && s.pcs[c].HoldRead? && s.pcs[c].p == p && !Borrowed(s.pcs, c)
    ensures Inv(Move(s, c, DropRead(p, Finish)))
  {
    PreserveMove(s, c, DropRead(p, Finish));
  }

  lemma PlanOk(s: State, c: nat, call: Call, init: Phase, onUnlock: Phase, plan: Phase)
    requires Inv(s) && c < |s.pcs| && s.pcs[c] == HoldWrite(call, init, onUnlock) && Advances(init, plan)
    ensures Inv(Move(s, c, HoldWrite(call, init, plan)))
  {
    PreserveMove(s, c, HoldWrite(call, init, plan));
  }

  lemma LetGoOk(s: State, c: nat, call: Call, init: Phase, onUnlock: Phase)
    requires Inv(s) && c < |s.pcs| && s.pcs[c] == HoldWrite(call, init, onUnlock)
    ensures Inv(Move(s, c, DropWrite(init, onUnlock, Finish)))
  {
    PreserveMove(s, c, DropWrite(init, onUnlock, Finish));
  }

  lemma DowngradeOk(s: State, c: nat, call: Call, init: Phase, onUnlock: Phase)
    requires Inv(s) && c < |s.pcs| && s.pcs[c] == HoldWrite(call, init, onUnlock)
    ensures Inv(Move(s, c, Convert(Derived, init, onUnlock)))
  {
    PreserveMove(s, c, Convert(Derived, init, onUnlock));
  }

  lemma HoldWriteOk(s: State, c: nat, ch: Choice)
    requires Inv(s) && Enabled(s, c, ch) && s.pcs[c].HoldWrite?
    ensures Inv(Step(s, c, ch))
  {
    var call, init, onUnlock := s.pcs[c].call, s.pcs[c].init, s.pcs[c].onUnlock;
    if ch.Plan? { PlanOk(s, c, call, init, onUnlock, ch.phase); }
    else if ch.DropGuard? { LetGoOk(s, c, call, init, onUnlock); }
    else { DowngradeOk(s, c, call, init, onUnlock); }
  }

  lemma PhaseXor(p: Phase, q: Phase)
    ensures Difference(p, Difference(p, q)) == q
  {
  }

  /** A watch that begins at a hand-over finds no other client in a hand-over. */
  lemma TransferOthers(s: State, c: nat, w: Word, next: Next, a: Profile)
    requires Inv(s) && c < |s.pcs| && ProfileOf(s.pcs[c]) == a && a.agent == 0
    requires !AgentNeeded(s.w) && AgentNeeded(w)
    requires B(w.locked) + a.token == B(s.w.locked) && w.readers + a.units == s.w.readers
    requires OthersOk(s, s.(w := w), c)
    ensures OthersOk(s, StartTransfer(s, c, w, next), c)
  {
    Others(Token, s.pcs, c);
    Others(Units, s.pcs, c);
    var t := StartTransfer(s, c, w, next);
    forall i: nat | i < |s.pcs| && i != c
      ensures PcOk(t.w, s.pcs[i]) && WatchOk(t, s.pcs[i])
    {
      SumAtLeast(Agent, s.pcs, i);
    }
  }

  /** What a client that releases its read or write lock carries. */
  predicate Releasing(pc: Pc) { pc.DropRead? || pc.DropWrite? || pc.DropWriteXor? }

  predicate ReleasedWord(s: State, w: Word, a: Profile) {
    && w.rw == s.w.rw && w.ww == s.w.ww && !AgentNeeded(s.w)
    && w.readers + a.units == s.w.readers
    && B(w.locked) + a.token == B(s.w.locked)
  }

  lemma TransferMayBe(s: State, c: nat, w: Word, next: Next)
    requires c < |s.pcs| && NextOk(next) && AgentNeeded(w)
    ensures MayBe(StartTransfer(s, c, w, next), Transfer(w, next))
    requires FairOk(s) && (s.watch ==> w.rw)
    ensures FairOk(StartTransfer(s, c, w, next))
  {
  }

  /** A release that leaves an unowned word with waiters makes the client its agent. */
  lemma PreserveTransfer(s: State, c: nat, w: Word, next: Next, a: Profile)
    requires Inv(s) && c < |s.pcs| && NextOk(next) && Releasing(s.pcs[c]) && ReleasedWord(s, w, a)
    requires ProfileOf(s.pcs[c]) == a && (a == READER || a == OWNER)
    requires OthersOk(s, s.(w := w), c) && AgentNeeded(w)
    ensures Inv(StartTransfer(s, c, w, next))
  {
    TransferOthers(s, c, w, next, a);
    TransferMayBe(s, c, w, next);
    Preserve(s, StartTransfer(s, c, w, next), c, Transfer(w, next), a, HANDING);
  }

  lemma PreserveRelease(s: State, c: nat, w: Word, next: Next, a: Profile)
    requires Inv(s) && c < |s.pcs| && NextOk(next) && Releasing(s.pcs[c]) && ReleasedWord(s, w, a)
    requires ProfileOf(s.pcs[c]) == a && (a == READER || a == OWNER)
    requires OthersOk(s, s.(w := w), c) && !AgentNeeded(w)
    ensures Inv(MoveWord(s, c, Resume(next), w))
  {
    var t := MoveWord(s, c, Resume(next), w);
    assert Light(Resume(next)) && PcOk(w, Resume(next)) && CloneSource(Resume(next)).None?;
    Preserve(s, t, c, Resume(next), a, NOTHING);
  }

  lemma DropReadOk(s: State, c: nat, p: Phase, next: Next)
    requires Inv(s) && c < |s.pcs| && s.pcs[c] == DropRead(p, next)
    ensures Inv(DropReadStep(s, c, next))
  {
    SumAtLeast(Units, s.pcs, c);
    var w := s.w.(readers := s.w.readers - 1);
    OthersMarked(s, s.(w := w), c);
    if AgentNeeded(w) { PreserveTransfer(s, c, w, next, READER); } else { PreserveRelease(s, c, w, next, READER); }
  }

  /** The owner's release: nobody waits and the word is exactly the planned phase. */
  lemma PreserveUnlock(s: State, c: nat, init: Phase, onUnlock: Phase, next: Next)
    requires Inv(s) && c < |s.pcs| && s.pcs[c] == DropWrite(init, onUnlock, next)
    requires s.w == Pure(init).(locked := true)
    ensures Inv(MoveWord(s, c, Resume(next), Pure(onUnlock)))
  {
    OthersPhase(s, s.(w := Pure(onUnlock)), c);
    PreserveRelease(s, c, Pure(onUnlock), next, OWNER);
  }

  /** The compare-exchange failed: waiters have shown up. */
  lemma PreserveNotAlone(s: State, c: nat, init: Phase, onUnlock: Phase, next: Next)
    requires Inv(s) && c < |s.pcs| && s.pcs[c] == DropWrite(init, onUnlock, next)
    ensures Inv(Move(s, c, DropWriteXor(init, onUnlock, next)))
  {
    PreserveMove(s, c, DropWriteXor(init, onUnlock, next));
  }

  lemma DropWriteOk(s: State, c: nat, init: Phase, onUnlock: Phase, next: Next)
    requires Inv(s) && c < |s.pcs| && s.pcs[c] == DropWrite(init, onUnlock, next)
    ensures Inv(DropWriteStep(s, c, init, onUnlock, next))
  {
    if s.w == Pure(init).(locked := true) {
      PreserveUnlock(s, c, init, onUnlock, next);
    } else {
      PreserveNotAlone(s, c, init, onUnlock, next);
    }
  }

  /** The owner's xor lands exactly on the planned phase, whatever waiter bits were set meanwhile. */
  lemma OwnerXor(s: State, c: nat, init: Phase, onUnlock: Phase)
    requires Inv(s) && c < |s.pcs| && (s.pcs[c].DropWriteXor? || s.pcs[c].Convert?)
    requires s.pcs[c].init == init && s.pcs[c].onUnlock == onUnlock
    ensures s.w.readers == 0 && s.w.locked
    ensures Unlocked(s.w, init, onUnlock) == s.w.(phase := onUnlock, locked := false)
  {
    SumAtLeast(Token, s.pcs, c);
    PhaseXor(init, onUnlock);
  }

  lemma PreserveXorRelease(s: State, c: nat, w: Word, init: Phase, onUnlock: Phase, next: Next)
    requires Inv(s) && c < |s.pcs| && s.pcs[c] == DropWriteXor(init, onUnlock, next)
    requires s.w.readers == 0 && s.w.locked && w == s.w.(phase := onUnlock, locked := false)
    ensures HasWaiters(w) ==> Inv(StartTransfer(s, c, w, next))
    ensures !HasWaiters(w) ==> Inv(MoveWord(s, c, Resume(next), w))
  {
    OthersPhase(s, s.(w := w), c);
    if HasWaiters(w) { PreserveTransfer(s, c, w, next, OWNER); } else { PreserveRelease(s, c, w, next, OWNER); }
  }

  lemma DropWriteXorOk(s: State, c: nat, init: Phase, onUnlock: Phase, next: Next)
    requires Inv(s) && c < |s.pcs| && s.pcs[c] == DropWriteXor(init, onUnlock, next)
    ensures Inv(DropWriteXorStep(s, c, init, onUnlock, next))
  {
    OwnerXor(s, c, init, onUnlock);
    PreserveXorRelease(s, c, s.w.(phase := onUnlock, locked := false), init, onUnlock, next);
  }

  /** Without a reader unit nobody is waking readers. */
  lemma NoWaker(s: State)
    requires Inv(s) && s.w.readers == 0
    ensures Sum(Waker, s.pcs) == 0
  {
    if Sum(Waker, s.pcs) > 0 {
      var i := SumPositive(Waker, s.pcs);
      SumAtLeast(Units, s.pcs, i);
    }
  }

  lemma PreserveConvert(s: State, c: nat, w: Word, origin: Origin)
    requires Inv(s) && c < |s.pcs| && s.pcs[c].Convert? && s.w.locked && s.w.readers == 0
    requires w == s.w.(phase := s.pcs[c].onUnlock, locked := false, readers := 1) && origin == s.pcs[c].origin
    ensures Inv(MoveWord(s, c, HoldRead(origin, w.phase), w))
  {
    OthersPhase(s, MoveWord(s, c, HoldRead(origin, w.phase), w), c);
    Preserve(s, MoveWord(s, c, HoldRead(origin, w.phase), w), c, HoldRead(origin, w.phase), OWNER, READER);
  }

  lemma PreserveConvertWaking(s: State, c: nat, w: Word, origin: Origin)
    requires Inv(s) && c < |s.pcs| && s.pcs[c].Convert? && s.w.locked && s.w.readers == 0 && s.w.rw
    requires w == s.w.(phase := s.pcs[c].onUnlock, locked := false, readers := 1) && origin == s.pcs[c].origin
    ensures Inv(MoveWord(s, c, ConvertXor(origin, w.phase), w))
  {
    NoWaker(s);
    OthersPhase(s, MoveWord(s, c, ConvertXor(origin, w.phase), w), c);
    Preserve(s, MoveWord(s, c, ConvertXor(origin, w.phase), w), c, ConvertXor(origin, w.phase), OWNER, READER.(waker := 1));
  }

  lemma ConvertOk(s: State, c: nat, origin: Origin, init: Phase, onUnlock: Phase)
    requires Inv(s) && c < |s.pcs| && s.pcs[c] == Convert(origin, init, onUnlock)
    ensures Inv(ConvertStep(s, c, origin, init, onUnlock))
  {
    OwnerXor(s, c, init, onUnlock);
    var w := s.w.(phase := onUnlock, locked := false, readers := 1);
    if s.w.rw {
      PreserveConvertWaking(s, c, w, origin);
    } else {
      PreserveConvert(s, c, w, origin);
    }
  }

  // ---------- hand-over ----------

  lemma TransferOk(s: State, c: nat, cur: Word, next: Next)
    requires Inv(s) && c < |s.pcs| && s.pcs[c] == Transfer(cur, next)
    ensures Inv(TransferStep(s, c, cur, next))
  {
    SumAtLeast(Agent, s.pcs, c);
    PreserveMove(s, c, HandOver(s.fairness % READ_FAIRNESS_PERIOD != 0, cur, next));
  }

  lemma HandXorOk(s: State, c: nat, prefer: bool, cur: Word, next: Next)
    requires Inv(s) && c < |s.pcs| && s.pcs[c] == HandXor(prefer, cur, next)
    ensures Inv(HandXorStep(s, c, prefer, cur, next))
  {
    SumAtLeast(Agent, s.pcs, c);
    var w := s.w.(ww := false, locked := true);
    var after := HandWake(prefer, cur, next);
    OthersHandXor(s, MoveWord(s, c, after, w), c);
    Preserve(s, MoveWord(s, c, after, w), c, after, HANDING, OWNER.(writerDuty := 1));
  }

  /** The client gives LOCKED_BIT back to a word on which new waiters have appeared: it stays their agent. */
  lemma PreserveStillAgent(s: State, c: nat, after: Pc)
    requires Inv(s) && c < |s.pcs| && s.pcs[c].HandUnlock? && HasWaiters(s.w)
    requires IsAgent(after) && !after.Transfer? && PcOk(s.w.(locked := false), after)
    ensures Inv(MoveWord(s, c, after, s.w.(locked := false)))
  {
    SumAtLeast(Token, s.pcs, c);
    OthersMarked(s, MoveWord(s, c, after, s.w.(locked := false)), c);
    Preserve(s, MoveWord(s, c, after, s.w.(locked := false)), c, after, OWNER, HANDING);
  }

  /** The client gives LOCKED_BIT back and leaves a free word. */
  lemma PreserveFreed(s: State, c: nat, next: Next)
    requires Inv(s) && c < |s.pcs| && s.pcs[c].HandUnlock? && s.pcs[c].next == next && !HasWaiters(s.w)
    ensures Inv(MoveWord(s, c, Resume(next), s.w.(locked := false)))
  {
    SumAtLeast(Token, s.pcs, c);
    OthersMarked(s, MoveWord(s, c, Resume(next), s.w.(locked := false)), c);
    Preserve(s, MoveWord(s, c, Resume(next), s.w.(locked := false)), c, Resume(next), OWNER, NOTHING);
  }

  lemma HandUnlockOk(s: State, c: nat, prefer: bool, next: Next)
    requires Inv(s) && c < |s.pcs| && s.pcs[c] == HandUnlock(prefer, next)
    ensures Inv(HandUnlockStep(s, c, prefer, next))
  {
    if HasWaiters(s.w) {
      PreserveStillAgent(s, c, HandOver(prefer, s.w.(locked := false), next));
    } else {
      PreserveFreed(s, c, next);
    }
  }

  /** Before its xor a waker of readers owns or keeps the word and READ_WAITER is set. */
  lemma BeforeWakeXor(s: State, c: nat)
    requires Inv(s) && c < |s.pcs| && (s.pcs[c].ConvertXor? || s.pcs[c].ReadersXor?)
    ensures s.w.rw && s.w.readers < MAX_WAKED_READERS
    ensures s.pcs[c].ConvertXor? ==> s.w.readers > 0
    ensures s.pcs[c].ReadersXor? ==> s.w.readers == 0 && s.w.locked == s.pcs[c].unactivate && Sum(Waker, s.pcs) == 0
  {
    SumAtLeast(Token, s.pcs, c);
    SumAtLeast(Agent, s.pcs, c);
    SumAtLeast(Units, s.pcs, c);
    if s.pcs[c].ReadersXor? { NoWaker(s); }
  }

  /** What a waker of readers carries after its xor. */
  const WAKING := Profile(1 + MAX_WAKED_READERS, 0, 0, 0, 1, 1, 0)

  lemma PreserveConvertXor(s: State, c: nat, w: Word, origin: Origin, p: Phase)
    requires Inv(s) && c < |s.pcs| && s.pcs[c] == ConvertXor(origin, p)
    requires w == s.w.(rw := false, readers := s.w.readers + MAX_WAKED_READERS)
    requires 0 < s.w.readers < MAX_WAKED_READERS
    ensures Inv(MoveWord(s, c, WakeReaders(Keep(origin, p)), w).(watch := false))
  {
    var t := MoveWord(s, c, WakeReaders(Keep(origin, p)), w).(watch := false);
    OthersConvertXor(s, t, c);
    Preserve(s, t, c, WakeReaders(Keep(origin, p)), READER.(waker := 1), WAKING);
  }

  lemma ConvertXorOk(s: State, c: nat, origin: Origin, p: Phase)
    requires Inv(s) && c < |s.pcs| && s.pcs[c] == ConvertXor(origin, p)
    ensures Inv(ConvertXorStep(s, c, origin, p))
  {
    BeforeWakeXor(s, c);
    PreserveConvertXor(s, c, s.w.(rw := false, readers := s.w.readers + MAX_WAKED_READERS), origin, p);
  }

  lemma PreserveReadersXor(s: State, c: nat, w: Word, unactivate: bool, next: Next, a: Profile)
    requires Inv(s) && c < |s.pcs| && s.pcs[c] == ReadersXor(unactivate, next)
    requires a == (if unactivate then OWNER else HANDING) && ProfileOf(s.pcs[c]) == a
    requires w == s.w.(rw := false, locked := false, readers := 1 + MAX_WAKED_READERS)
    requires s.w.rw && s.w.readers == 0 && s.w.locked == unactivate && Sum(Waker, s.pcs) == 0
    ensures Inv(MoveWord(s, c, WakeReaders(Release(next)), w).(watch := false))
  {
    var t := MoveWord(s, c, WakeReaders(Release(next)), w).(watch := false);
    OthersReadersXor(s, t, c);
    Preserve(s, t, c, WakeReaders(Release(next)), a, WAKING);
  }

  lemma ReadersXorOk(s: State, c: nat, unactivate: bool, next: Next)
    requires Inv(s) && c < |s.pcs| && s.pcs[c] == ReadersXor(unactivate, next)
    ensures Inv(ReadersXorStep(s, c, unactivate, next))
  {
    BeforeWakeXor(s, c);
    PreserveReadersXor(s, c, s.w.(rw := false, locked := false, readers := 1 + MAX_WAKED_READERS), unactivate, next,
      if unactivate then OWNER else HANDING);
  }

  lemma RemarkReaderOk(s: State, c: nat, count: nat, after: After)
    requires Inv(s) && c < |s.pcs| && s.pcs[c] == RemarkReader(count, after)
    ensures Inv(MoveWord(s, c, Settle(count, after), s.w.(rw := true)))
  {
    SumAtLeast(Units, s.pcs, c);
    var t := MoveWord(s, c, Settle(count, after), s.w.(rw := true));
    OthersMarked(s, t, c);
    Preserve(s, t, c, Settle(count, after), ProfileOf(s.pcs[c]), ProfileOf(Settle(count, after)));
  }

  lemma SettleOk(s: State, c: nat, count: nat, after: After)
    requires Inv(s) && c < |s.pcs| && s.pcs[c] == Settle(count, after)
    ensures Inv(SettleStep(s, c, count, after))
  {
    SumAtLeast(Units, s.pcs, c);
    var t := MoveWord(s, c, Settled(after, s.w.phase), s.w.(readers := s.w.readers - (MAX_WAKED_READERS - count)));
    OthersMarked(s, t, c);
    Preserve(s, t, c, Settled(after, s.w.phase), ProfileOf(s.pcs[c]), READER);
  }

  // ---------- waking others ----------

  /** While `c` hands over under LOCKED_BIT, no other client depends on the fairness counter. */
  lemma OthersFairness(s: State, t: State, c: nat)
    requires Inv(s) && c < |s.pcs| && s.pcs[c].HandWake?
    requires t.w == s.w && t.watch == s.watch
    ensures OthersOk(s, t, c)
  {
    Others(Token, s.pcs, c);
    forall i: nat | i < |s.pcs| && i != c
      ensures PcOk(t.w, s.pcs[i]) && WatchOk(t, s.pcs[i])
    {
      SumAtLeast(Agent, s.pcs, i);
      SumAtLeast(Units, s.pcs, i);
    }
  }

  lemma FairnessTicks(s: State)
    requires FairOk(s) && (s.watch ==> s.fairness % READ_FAIRNESS_PERIOD != 0)
    ensures var t := s.(fairness := (s.fairness + 1) % 0x1_0000);
      FairOk(t) && FairOk(t.(handoffs := if s.watch then s.handoffs + 1 else s.handoffs))
  {
  }

  /** Nobody was parked: the hand-over goes on to the readers. */
  lemma WakeNoneToReaders(s: State, c: nat, cur: Word, next: Next, t: State)
    requires Inv(s) && c < |s.pcs| && s.pcs[c] == HandWake(true, cur, next) && cur.rw && FairOk(t)
    requires forall i: nat :: i < |s.pcs| ==> !s.pcs[i].ParkedWriter?
    requires t == Move(s, c, ReadersXor(true, next)).(fairness := t.fairness) && t.fairness < 0x1_0000
    ensures Inv(t)
  {
    SumAtLeast(Token, s.pcs, c);
    OthersFairness(s, t, c);
    Preserve(s, t, c, ReadersXor(true, next), OWNER.(writerDuty := 1), OWNER);
  }

  /** Or it unlocks. */
  lemma WakeNoneToUnlock(s: State, c: nat, prefer: bool, cur: Word, next: Next, t: State)
    requires Inv(s) && c < |s.pcs| && s.pcs[c] == HandWake(prefer, cur, next) && !(prefer && cur.rw) && FairOk(t)
    requires forall i: nat :: i < |s.pcs| ==> !s.pcs[i].ParkedWriter?
    requires t == Move(s, c, HandUnlock(prefer, next)).(fairness := t.fairness) && t.fairness < 0x1_0000
    ensures Inv(t)
  {
    SumAtLeast(Token, s.pcs, c);
    OthersFairness(s, t, c);
    Preserve(s, t, c, HandUnlock(prefer, next), OWNER.(writerDuty := 1), OWNER);
  }

  lemma WakeNoneOk(s: State, c: nat, prefer: bool, cur: Word, next: Next)
    requires Inv(s) && c < |s.pcs| && s.pcs[c] == HandWake(prefer, cur, next)
    requires forall i: nat :: i < |s.pcs| ==> !s.pcs[i].ParkedWriter?
    ensures Inv(WakeNoneStep(s, c, prefer, cur, next))
  {
    FairnessTicks(s);
    if prefer && cur.rw {
      WakeNoneToReaders(s, c, cur, next, WakeNoneStep(s, c, prefer, cur, next));
    } else {
      WakeNoneToUnlock(s, c, prefer, cur, next, WakeNoneStep(s, c, prefer, cur, next));
    }
  }

  lemma {:induction false} SumUpdateTwo(k: Kind, pcs: seq<Pc>, i: nat, p: Pc, j: nat, q: Pc)
    requires i < |pcs| && j < |pcs| && i != j
    ensures Sum(k, pcs[i := p][j := q]) + Weight(k, pcs[i]) + Weight(k, pcs[j])
         == Sum(k, pcs) + Weight(k, p) + Weight(k, q)
  {
    SumUpdate(k, pcs, i, p);
    SumUpdate(k, pcs[i := p], j, q);
  }

  /** A hand-over moves LOCKED_BIT, with the duty to set WRITE_WAITER again, to the woken writer. */
  lemma WakeOneSum(s: State, c: nat, next: Next, target: nat, k: Kind)
    requires c < |s.pcs| && ProfileOf(s.pcs[c]) == OWNER.(writerDuty := 1)
    requires target < |s.pcs| && s.pcs[target].ParkedWriter?
    ensures Sum(k, WakeOneStep(s, c, next, target).pcs) == Sum(k, s.pcs)
  {
    SumUpdateTwo(k, s.pcs, target, WokenWriter(s.pcs[target].call), c, Resume(next));
  }

  lemma WakeOneCounts(s: State, c: nat, next: Next, target: nat)
    requires Inv(s) && c < |s.pcs| && ProfileOf(s.pcs[c]) == OWNER.(writerDuty := 1)
    requires target < |s.pcs| && s.pcs[target].ParkedWriter?
    ensures CountsOk(WakeOneStep(s, c, next, target))
    ensures Sum(ReaderDuty, WakeOneStep(s, c, next, target).pcs) == Sum(ReaderDuty, s.pcs)
    ensures Sum(WriterDuty, WakeOneStep(s, c, next, target).pcs) > 0
  {
    WakeOneSum(s, c, next, target, Units);
    WakeOneSum(s, c, next, target, Token);
    WakeOneSum(s, c, next, target, Agent);
    WakeOneSum(s, c, next, target, Counted);
    WakeOneSum(s, c, next, target, Waker);
    WakeOneSum(s, c, next, target, ReaderDuty);
    WakeOneSum(s, c, next, target, WriterDuty);
    SumAtLeast(WriterDuty, s.pcs, c);
  }

  lemma WakeOneClients(s: State, c: nat, next: Next, target: nat)
    requires Inv(s) && c < |s.pcs| && s.pcs[c].HandWake? && s.pcs[c].next == next
    requires target < |s.pcs| && s.pcs[target].ParkedWriter?
    ensures ClientsOk(WakeOneStep(s, c, next, target))
  {
    var t := WakeOneStep(s, c, next, target);
    WakeOneCounts(s, c, next, target);
    OthersFairness(s, t, c);
    forall i: nat | i < |t.pcs|
      ensures ClientOk(t, i)
    {
      assert i != c && i != target ==> t.pcs[i] == s.pcs[i];
    }
  }

  /** Clients that keep their borrowed source, and guards that stay guards. */
  lemma BorrowsKept(before: seq<Pc>, after: seq<Pc>)
    requires BorrowsOk(before) && |after| == |before|
    requires forall i: nat {:trigger after[i]} :: i < |before| ==>
      (CloneSource(after[i]).Some? ==> CloneSource(after[i]) == CloneSource(before[i]))
      && (before[i].HoldRead? ==> after[i].HoldRead?)
    ensures BorrowsOk(after)
  {
  }

  lemma WakeOneBorrows(s: State, c: nat, next: Next, target: nat)
    requires BorrowsOk(s.pcs) && c < |s.pcs| && s.pcs[c].HandWake?
    requires target < |s.pcs| && s.pcs[target].ParkedWriter?
    ensures BorrowsOk(WakeOneStep(s, c, next, target).pcs)
  {
    BorrowsKept(s.pcs, WakeOneStep(s, c, next, target).pcs);
  }

  lemma WakeOneOk(s: State, c: nat, next: Next, target: nat)
    requires Inv(s) && c < |s.pcs| && s.pcs[c].HandWake? && s.pcs[c].next == next
    requires target < |s.pcs| && s.pcs[target].ParkedWriter?
    ensures Inv(WakeOneStep(s, c, next, target))
  {
    var t := WakeOneStep(s, c, next, target);
    WakeOneCounts(s, c, next, target);
    WakeOneClients(s, c, next, target);
    FairnessTicks(s);
    WakeOneBorrows(s, c, next, target);
  }

  lemma SubsetSize(a: set<nat>, b: set<nat>)
    requires a <= b
    ensures |a| <= |b|
    ensures |a| == |b| ==> a == b
  {
    assert b == a + (b - a);
  }

  predicate RightlyWoken(s: State, woken: set<nat>) {
    && woken <= ParkedReaders(s.pcs)
    && |woken| == if |ParkedReaders(s.pcs)| < MAX_WAKED_READERS then |ParkedReaders(s.pcs)| else MAX_WAKED_READERS
  }

  /** `all` is the list of clients after waking `count` parked readers of `pcs`. */
  predicate Woken(pcs: seq<Pc>, all: seq<Pc>, count: nat) {
    |all| == |pcs| && forall k: Kind :: Sum(k, all) == Sum(k, pcs) + (if k.Units? then count else 0)
  }

  lemma WakeAllSums(pcs: seq<Pc>, woken: set<nat>)
    requires woken <= ParkedReaders(pcs)
    ensures Woken(pcs, WakeAll(pcs, woken), |woken|)
  {
    assert Under(woken, |pcs|) == woken;
    forall k: Kind
      ensures Sum(k, WakeAll(pcs, woken)) == Sum(k, pcs) + (if k.Units? then |woken| else 0)
    {
      SumWake(k, pcs, woken);
    }
  }

  /** The units handed to the woken readers come out of the waker's READER_OVERF units. */
  lemma WakeReadersCounts(s: State, t: State, a: Profile, b: Profile, count: nat)
    requires CountsOk(s) && count <= MAX_WAKED_READERS
    requires a == WAKING && b == WAKING.(units := WAKING.units - count, readerDuty := b.readerDuty)
    requires t.w == s.w && t.writerCount == s.writerCount
    requires Sum(Units, t.pcs) + a.units == Sum(Units, s.pcs) + count + b.units
    requires Sum(Token, t.pcs) + a.token == Sum(Token, s.pcs) + b.token
    requires Sum(Agent, t.pcs) + a.agent == Sum(Agent, s.pcs) + b.agent
    requires Sum(Counted, t.pcs) + a.counted == Sum(Counted, s.pcs) + b.counted
    requires Sum(Waker, t.pcs) + a.waker == Sum(Waker, s.pcs) + b.waker
    ensures CountsOk(t)
  {
  }

  lemma WakeReadersBalance(s: State, t: State, c: nat, all: seq<Pc>, count: nat, b: Profile)
    requires CountsOk(s) && c < |s.pcs| && Woken(s.pcs, all, count) && count <= MAX_WAKED_READERS
    requires ProfileOf(all[c]) == WAKING && |t.pcs| == |all| && t.pcs == all[c := t.pcs[c]]
    requires t.w == s.w && t.writerCount == s.writerCount
    requires ProfileOf(t.pcs[c]) == b == WAKING.(units := WAKING.units - count, readerDuty := b.readerDuty)
    ensures CountsOk(t) && Sum(WriterDuty, t.pcs) == Sum(WriterDuty, s.pcs)
  {
    var after := t.pcs[c];
    SumUpdate(Units, all, c, after);
    SumUpdate(Token, all, c, after);
    SumUpdate(Agent, all, c, after);
    SumUpdate(Counted, all, c, after);
    SumUpdate(Waker, all, c, after);
    SumUpdate(WriterDuty, all, c, after);
    WakeReadersCounts(s, t, WAKING, b, count);
  }

  /** If fewer than MAX_WAKED_READERS readers were woken, every parked reader was. */
  lemma NobodyLeft(s: State, woken: set<nat>, i: nat)
    requires RightlyWoken(s, woken) && |woken| < MAX_WAKED_READERS && i < |s.pcs| && s.pcs[i].ParkedReader?
    ensures i in woken
  {
    SubsetSize(woken, ParkedReaders(s.pcs));
    assert i in ParkedReaders(s.pcs);
  }

  lemma WokenClient(s: State, t: State, i: nat)
    requires i < |s.pcs| == |t.pcs| && ClientOk(s, i)
    requires t.w == s.w && !s.watch && !t.watch
    requires t.pcs[i] == s.pcs[i] || (s.pcs[i].ParkedReader? && t.pcs[i] == WokenReader(s.pcs[i].job))
    requires Sum(WriterDuty, t.pcs) == Sum(WriterDuty, s.pcs)
    requires t.pcs[i].ParkedReader? ==> Sum(ReaderDuty, t.pcs) > 0
    ensures ClientOk(t, i)
  {
  }

  lemma WakeReadersClients(s: State, t: State, c: nat, after: After, woken: set<nat>)
    requires Inv(s) && c < |s.pcs| && s.pcs[c] == WakeReaders(after) && RightlyWoken(s, woken) && !s.watch
    requires |t.pcs| == |s.pcs| && t.pcs == WakeAll(s.pcs, woken)[c := t.pcs[c]]
    requires t.w == s.w && t.watch == s.watch && ClientOk(t, c)
    requires Sum(WriterDuty, t.pcs) == Sum(WriterDuty, s.pcs)
    requires |woken| == MAX_WAKED_READERS ==> Sum(ReaderDuty, t.pcs) > 0
    ensures ClientsOk(t)
  {
    forall i: nat | i < |t.pcs|
      ensures ClientOk(t, i)
    {
      if i != c {
        if t.pcs[i].ParkedReader? && |woken| < MAX_WAKED_READERS { NobodyLeft(s, woken, i); }
        assert s.pcs[i] == s.pcs[i];
        WokenClient(s, t, i);
      }
    }
  }

  lemma WakeReadersBorrows(s: State, t: State, c: nat, woken: set<nat>)
    requires BorrowsOk(s.pcs) && c < |s.pcs| == |t.pcs| && s.pcs[c].WakeReaders? && CloneSource(t.pcs[c]).None?
    requires t.pcs == WakeAll(s.pcs, woken)[c := t.pcs[c]]
    ensures BorrowsOk(t.pcs)
  {
    BorrowsKept(s.pcs, t.pcs);
  }

  /** The waker itself after the wake: RemarkReader if it woke as many as it could, else Settle. */
  lemma WakerAfter(s: State, t: State, c: nat, after: After, count: nat)
    requires Inv(s) && c < |s.pcs| == |t.pcs| && s.pcs[c] == WakeReaders(after) && count <= MAX_WAKED_READERS
    requires t.w == s.w && t.watch == s.watch
    requires t.pcs[c] == if count == MAX_WAKED_READERS then RemarkReader(count, after) else Settle(count, after)
    ensures ClientOk(t, c) && !s.watch && CloneSource(t.pcs[c]).None?
    ensures var b := ProfileOf(t.pcs[c]); b == WAKING.(units := WAKING.units - count, readerDuty := b.readerDuty)
  {
    assert ClientOk(s, c);
  }

  lemma RemarkIsDuty(pcs: seq<Pc>, c: nat)
    requires c < |pcs| && pcs[c].RemarkReader?
    ensures Sum(ReaderDuty, pcs) > 0
  {
    SumAtLeast(ReaderDuty, pcs, c);
  }

  lemma WakerKept(pcs: seq<Pc>, woken: set<nat>, c: nat)
    requires c < |pcs| && pcs[c].WakeReaders?
    ensures ProfileOf(WakeAll(pcs, woken)[c]) == WAKING
  {
    assert WakeAll(pcs, woken)[c] == pcs[c];
  }

  lemma WakeReadersDuties(s: State, t: State, c: nat, woken: set<nat>, b: Profile)
    requires CountsOk(s) && c < |s.pcs| == |t.pcs| && s.pcs[c].WakeReaders? && woken <= ParkedReaders(s.pcs)
    requires t.pcs == WakeAll(s.pcs, woken)[c := t.pcs[c]] && t.w == s.w && t.writerCount == s.writerCount
    requires |woken| <= MAX_WAKED_READERS
    requires ProfileOf(t.pcs[c]) == b == WAKING.(units := WAKING.units - |woken|, readerDuty := b.readerDuty)
    ensures CountsOk(t) && Sum(WriterDuty, t.pcs) == Sum(WriterDuty, s.pcs)
  {
    WakeAllSums(s.pcs, woken);
    WakerKept(s.pcs, woken, c);
    WakeReadersBalance(s, t, c, WakeAll(s.pcs, woken), |woken|, b);
  }

  lemma WakeReadersOk(s: State, c: nat, after: After, woken: set<nat>)
    requires Inv(s) && c < |s.pcs| && s.pcs[c] == WakeReaders(after) && RightlyWoken(s, woken)
    ensures Inv(WakeReadersStep(s, c, after, woken))
  {
    var t := WakeReadersStep(s, c, after, woken);
    assert t.pcs == WakeAll(s.pcs, woken)[c := t.pcs[c]];
    WakerAfter(s, t, c, after, |woken|);
    WakeReadersDuties(s, t, c, woken, ProfileOf(t.pcs[c]));
    if |woken| == MAX_WAKED_READERS { RemarkIsDuty(t.pcs, c); }
    assert ClientsOk(t) by { WakeReadersClients(s, t, c, after, woken); }
    assert BorrowsOk(t.pcs) by { WakeReadersBorrows(s, t, c, woken); }
  }

  // ---------- every step ----------

  lemma LocalOk(s: State, c: nat, after: Pc)
    requires Inv(s) && c < |s.pcs|
    requires (s.pcs[c].Idle? && after.Optimistic?) || ((s.pcs[c].AnsweredNone? || s.pcs[c].Refused?) && after.Idle?)
    ensures Inv(Move(s, c, after))
  {
    PreserveLight(s, c, after);
  }

  predicate Acquiring(pc: Pc) {
    || pc.Idle? || pc.AnsweredNone? || pc.Refused? || pc.Optimistic? || pc.FastWrite? || pc.ReadCas?
    || pc.ReadReload? || pc.SlowLoad? || pc.SlowWrite? || pc.Announce? || pc.CloneLoad?
  }

  predicate Waiting(pc: Pc) {
    || pc.MarkWriter? || pc.MarkReader? || pc.WaitReaders? || pc.Withdraw? || pc.ParkWriter? || pc.ParkReader?
  }

  predicate Waking(pc: Pc) {
    || pc.CountWriter? || pc.UncountWriter? || pc.WokenWriter? || pc.RemarkWriter? || pc.WokenLoad? || pc.WokenReader?
  }

  predicate Releases(pc: Pc) {
    pc.DropRead? || pc.DropWrite? || pc.DropWriteXor? || pc.Convert? || pc.ConvertXor?
  }

  lemma BeginningStep(s: State, c: nat, ch: Choice)
    requires Inv(s) && Enabled(s, c, ch)
    ensures s.pcs[c].Idle? || s.pcs[c].AnsweredNone? || s.pcs[c].Refused? ==> Inv(Step(s, c, ch))
  {
    match s.pcs[c]
    case Idle => if ch.Begin? { LocalOk(s, c, Optimistic(ch.call)); } else { BeginCloneOk(s, c, ch.src); }
    case AnsweredNone(_, _) => LocalOk(s, c, Idle);
    case Refused(_) => LocalOk(s, c, Idle);
    case _ =>
  }

  lemma ReadingStep(s: State, c: nat, ch: Choice)
    requires Inv(s) && Enabled(s, c, ch)
    ensures s.pcs[c].ReadCas? || s.pcs[c].ReadReload? || s.pcs[c].CloneLoad? ==> Inv(Step(s, c, ch))
  {
    match s.pcs[c]
    case ReadCas(site, cur) => ReadCasOk(s, c, site, cur, ch.spurious, ch.spin);
    case ReadReload(site) => ReadReloadOk(s, c, site, ch.spin);
    case CloneLoad(src) => CloneLoadOk(s, c, src, ch.spin);
    case _ =>
  }

  lemma AcquiringStep(s: State, c: nat, ch: Choice)
    requires Inv(s) && Enabled(s, c, ch)
    ensures Acquiring(s.pcs[c]) ==> Inv(Step(s, c, ch))
  {
    BeginningStep(s, c, ch);
    ReadingStep(s, c, ch);
    match s.pcs[c]
    case Optimistic(call) => OptimisticOk(s, c, call, ch.spurious);
    case FastWrite(call, cur) => FastWriteOk(s, c, call, cur, ch.spurious);
    case SlowLoad(call) => BackToLoop(s, c, call, ch.spin);
    case SlowWrite(call, cur) => SlowWriteOk(s, c, call, cur, ch.spurious, ch.spin);
    case Announce(call, cur) => AnnounceOk(s, c, call, cur, ch.spurious, ch.spin);
    case _ =>
  }

  lemma WaitingStep(s: State, c: nat, ch: Choice)
    requires Inv(s) && Enabled(s, c, ch)
    ensures Waiting(s.pcs[c]) ==> Inv(Step(s, c, ch))
  {
    match s.pcs[c]
    case MarkWriter(call, cur) => MarkWriterOk(s, c, call, cur, ch.spurious, ch.spin);
    case MarkReader(job, cur) => MarkReaderOk(s, c, job, cur, ch.spurious, ch.spin);
    case WaitReaders(call) => WaitReadersOk(s, c, call, ch.spin);
    case Withdraw(call, cur) => WithdrawOk(s, c, call, cur, ch.spurious);
    case ParkWriter(call, cur) => ParkWriterOk(s, c, call, cur);
    case ParkReader(job, cur) => ParkReaderOk(s, c, job, cur);
    case _ =>
  }

  lemma WakingStep(s: State, c: nat, ch: Choice)
    requires Inv(s) && Enabled(s, c, ch)
    ensures Waking(s.pcs[c]) ==> Inv(Step(s, c, ch))
  {
    match s.pcs[c]
    case CountWriter(call, cur) => CountWriterOk(s, c, call, cur);
    case UncountWriter(call) => UncountWriterOk(s, c, call);
    case WokenWriter(call) => WokenWriterOk(s, c, call);
    case RemarkWriter(call) => RemarkWriterOk(s, c, call);
    case WokenLoad(call) => WokenLoadOk(s, c, call);
    case WokenReader(job) => WokenReaderOk(s, c, job);
    case _ =>
  }

  lemma GuardStep(s: State, c: nat, ch: Choice)
    requires Inv(s) && Enabled(s, c, ch)
    ensures s.pcs[c].HoldRead? || s.pcs[c].HoldWrite? ==> Inv(Step(s, c, ch))
  {
    match s.pcs[c]
    case HoldRead(_, p) => DropGuardOk(s, c, p);
    case HoldWrite(_, _, _) => HoldWriteOk(s, c, ch);
    case _ =>
  }

  lemma ReleasingStep(s: State, c: nat, ch: Choice)
    requires Inv(s) && Enabled(s, c, ch)
    ensures Releases(s.pcs[c]) ==> Inv(Step(s, c, ch))
  {
    match s.pcs[c]
    case DropRead(p, next) => DropReadOk(s, c, p, next);
    case DropWrite(init, onUnlock, next) => DropWriteOk(s, c, init, onUnlock, next);
    case DropWriteXor(init, onUnlock, next) => DropWriteXorOk(s, c, init, onUnlock, next);
    case Convert(origin, init, onUnlock) => ConvertOk(s, c, origin, init, onUnlock);
    case ConvertXor(origin, p) => ConvertXorOk(s, c, origin, p);
    case _ =>
  }

  /** Every step of every client preserves the invariant. */
  lemma InvStep(s: State, c: nat, ch: Choice)
    requires Inv(s) && Enabled(s, c, ch)
    ensures Inv(Step(s, c, ch))
  {
    AcquiringStep(s, c, ch);
    WaitingStep(s, c, ch);
    WakingStep(s, c, ch);
    GuardStep(s, c, ch);
    ReleasingStep(s, c, ch);
    match s.pcs[c]
    case Transfer(cur, next) => TransferOk(s, c, cur, next);
    case HandXor(prefer, cur, next) => HandXorOk(s, c, prefer, cur, next);
    case HandWake(prefer, cur, next) =>
      if ch.WakeOne? { WakeOneOk(s, c, next, ch.target); } else { WakeNoneOk(s, c, prefer, cur, next); }
    case HandUnlock(prefer, next) => HandUnlockOk(s, c, prefer, next);
    case ReadersXor(unactivate, next) => ReadersXorOk(s, c, unactivate, next);
    case WakeReaders(after) => WakeReadersOk(s, c, after, ch.woken);
    case RemarkReader(count, after) => RemarkReaderOk(s, c, count, after);
    case Settle(count, after) => SettleOk(s, c, count, after);
    case _ =>
  }
}
