/** No parked client is stranded: as long as nobody is in the middle of `ReadLock::clone`, every parked client
    is woken in some continuation.  The proof lets the responsible clients finish, readers first; each of
    their steps wakes somebody or uses up work. */
module FutexProgress {
  import opened Phases
  import opened FutexProtocol
  import opened FutexInvariant
  import opened FutexPreserved
  import opened FutexTheorems
  import opened FutexMoves
  import opened FutexRuns
  import opened FutexClones

  ghost predicate NoClones(s: State) { forall k: nat :: k < |s.pcs| ==> CloneSource(s.pcs[k]).None? }

  // ---------- the work that is left ----------

  const BIT := 8  // a waiter bit that is set is work for a hand-over

  /** How far a responsible client is from being done. */
  function Rank(pc: Pc): nat {
    match pc
    case HandXor(_, _, _) => 1
    case ReadersXor(_, _) => 1
    case ConvertXor(_, _) => 1
    case HandUnlock(_, _) => 2
    case HandWake(_, _, _) => 3
    case Transfer(_, _) => 3
    case DropRead(_, _) => 4
    case DropWriteXor(_, _, _) => 4
    case HoldRead(_, _) => 5
    case DropWrite(_, _, _) => 5
    case WokenReader(_) => 6
    case Settle(_, _) => 6
    case HoldWrite(_, _, _) => 6
    case Convert(_, _, _) => 6
    case WakeReaders(_) => 7
    case WokenLoad(_) => 7
    case WaitReaders(_) => 7
    case Withdraw(_, _) => 7
    case RemarkReader(_, _) => 7 + BIT
    case RemarkWriter(_) => 8 + BIT
    case WokenWriter(_) => 9 + BIT
    case _ => 0
  }

  function Work(pcs: seq<Pc>): nat {
    if pcs == [] then 0 else Work(pcs[..|pcs| - 1]) + Rank(pcs[|pcs| - 1])
  }

  function BitWork(w: Word): nat { BIT * Bit(w.rw) + BIT * Bit(w.ww) }

  function Left(s: State): nat { Work(s.pcs) + BitWork(s.w) }

  lemma {:induction false} WorkUpdate(pcs: seq<Pc>, c: nat, pc: Pc)
    requires c < |pcs|
    ensures Work(pcs[c := pc]) + Rank(pcs[c]) == Work(pcs) + Rank(pc)
    decreases |pcs|
  {
    var n := |pcs| - 1;
    if c == n {
      assert pcs[c := pc][..n] == pcs[..n];
    } else {
      assert pcs[c := pc][..n] == pcs[..n][c := pc];
      WorkUpdate(pcs[..n], c, pc);
    }
  }

  // ---------- a step of a responsible client ----------

  /** The step of `c` uses up work, and leaves `c` neither parked nor cloning. */
  ghost predicate UsesUp(s: State, t: State, c: nat) {
    && c < |s.pcs| == |t.pcs|
    && Rank(t.pcs[c]) + BitWork(t.w) < Rank(s.pcs[c]) + BitWork(s.w)
    && !Parked(t.pcs[c]) && CloneSource(t.pcs[c]).None?
  }

  lemma ResumeIsDone(next: Next)
    ensures Rank(Resume(next)) == 0 && !Parked(Resume(next)) && CloneSource(Resume(next)).None?
  {
  }

  lemma GuardUsesUp(s: State, c: nat, ch: Choice)
    requires Enabled(s, c, ch) && (s.pcs[c].HoldRead? || (s.pcs[c].HoldWrite? && ch.DropGuard?))
    ensures UsesUp(s, Step(s, c, ch), c)
  {
  }

  lemma ConvertUsesUp(s: State, c: nat, ch: Choice)
    requires Enabled(s, c, ch) && s.pcs[c].Convert?
    ensures UsesUp(s, Step(s, c, ch), c)
  {
  }

  lemma WokenUsesUp(s: State, c: nat, ch: Choice)
    requires Enabled(s, c, ch) && (s.pcs[c].WokenReader? || s.pcs[c].RemarkReader?)
    ensures UsesUp(s, Step(s, c, ch), c)
  {
  }

  lemma SettleUsesUp(s: State, c: nat, ch: Choice)
    requires Enabled(s, c, ch) && s.pcs[c].Settle?
    ensures UsesUp(s, Step(s, c, ch), c)
  {
  }

  lemma DropReadUsesUp(s: State, c: nat, ch: Choice)
    requires Enabled(s, c, ch) && s.pcs[c].DropRead?
    ensures UsesUp(s, Step(s, c, ch), c)
  {
    ResumeIsDone(s.pcs[c].next);
  }

  lemma DropWriteUsesUp(s: State, c: nat, ch: Choice)
    requires Enabled(s, c, ch) && s.pcs[c].DropWrite?
    ensures UsesUp(s, Step(s, c, ch), c)
  {
    ResumeIsDone(s.pcs[c].next);
  }

  lemma DropWriteXorUsesUp(s: State, c: nat, ch: Choice)
    requires Enabled(s, c, ch) && s.pcs[c].DropWriteXor?
    ensures UsesUp(s, Step(s, c, ch), c)
  {
    ResumeIsDone(s.pcs[c].next);
  }

  /** A writer that waits for readers to leave, when they have left. */
  lemma AnnouncedUsesUp(s: State, c: nat, ch: Choice)
    requires Enabled(s, c, ch) && PcOk(s.w, s.pcs[c]) && s.w.readers == 0 && Announced(s.pcs[c])
    ensures UsesUp(s, Step(s, c, ch), c)
  {
  }

  lemma WokenWriterUsesUp(s: State, c: nat, ch: Choice)
    requires Enabled(s, c, ch) && (s.pcs[c].WokenWriter? || s.pcs[c].RemarkWriter? || s.pcs[c].WokenLoad?)
    ensures UsesUp(s, Step(s, c, ch), c)
  {
  }

  lemma TransferUsesUp(s: State, c: nat, ch: Choice)
    requires Enabled(s, c, ch) && PcOk(s.w, s.pcs[c]) && s.pcs[c].Transfer?
    ensures UsesUp(s, Step(s, c, ch), c)
  {
  }

  lemma HandUnlockUsesUp(s: State, c: nat, ch: Choice)
    requires Enabled(s, c, ch) && s.pcs[c].HandUnlock?
    ensures UsesUp(s, Step(s, c, ch), c)
  {
    ResumeIsDone(s.pcs[c].next);
  }

  /** The steps that clear a waiter bit. */
  lemma XorUsesUp(s: State, c: nat, ch: Choice)
    requires Enabled(s, c, ch) && PcOk(s.w, s.pcs[c])
    requires s.pcs[c].HandXor? || s.pcs[c].ReadersXor? || s.pcs[c].ConvertXor?
    ensures UsesUp(s, Step(s, c, ch), c)
  {
  }

  /** A waker that finds nobody. */
  lemma WakeNoneUsesUp(s: State, c: nat, ch: Choice)
    requires Enabled(s, c, ch) && s.pcs[c].HandWake? && ch.WakeNone?
    ensures UsesUp(s, Step(s, c, ch), c)
  {
  }

  lemma WakeNobodyUsesUp(s: State, c: nat, ch: Choice)
    requires Enabled(s, c, ch) && s.pcs[c].WakeReaders? && ch.woken == {}
    ensures UsesUp(s, Step(s, c, ch), c)
  {
  }

  // ---------- every step wakes somebody or uses up work ----------

  function Sleepers(pcs: seq<Pc>): set<nat> { set i: nat | i < |pcs| && Parked(pcs[i]) }

  ghost predicate Nearer(s: State, t: State) {
    && |t.pcs| == |s.pcs| && NoClones(t)
    && (Sleepers(t.pcs) < Sleepers(s.pcs) || (Sleepers(t.pcs) == Sleepers(s.pcs) && Left(t) < Left(s)))
  }

  lemma UsedUp(s: State, t: State, c: nat)
    requires NoClones(s) && MovesOne(s.pcs, t.pcs, c) && UsesUp(s, t, c) && !Parked(s.pcs[c])
    ensures Nearer(s, t)
  {
    WorkUpdate(s.pcs, c, t.pcs[c]);
    forall k: nat | k < |t.pcs|
      ensures CloneSource(t.pcs[k]).None? && (Parked(t.pcs[k]) <==> Parked(s.pcs[k]))
    {
      if k != c { assert t.pcs[k] == s.pcs[k]; }
    }
    assert Sleepers(t.pcs) == Sleepers(s.pcs);
  }

  lemma AloneNearer(s: State, c: nat, ch: Choice)
    requires NoClones(s) && Enabled(s, c, ch) && !s.pcs[c].HandWake? && !s.pcs[c].WakeReaders?
    requires UsesUp(s, Step(s, c, ch), c)
    ensures Nearer(s, Step(s, c, ch))
  {
    OneMoves(s, c, ch);
    UsedUp(s, Step(s, c, ch), c);
  }

  lemma OwnerNearer(s: State, c: nat, ch: Choice)
    requires Inv(s) && NoClones(s) && Enabled(s, c, ch)
    requires (s.pcs[c].HoldWrite? && ch.DropGuard?) || s.pcs[c].Convert? || s.pcs[c].DropWrite?
      || s.pcs[c].DropWriteXor?
    ensures Nearer(s, Step(s, c, ch))
  {
    match s.pcs[c] {
      case DropWrite(_, _, _) => DropWriteUsesUp(s, c, ch);
      case DropWriteXor(_, _, _) => DropWriteXorUsesUp(s, c, ch);
      case Convert(_, _, _) => ConvertUsesUp(s, c, ch);
      case _ => GuardUsesUp(s, c, ch);
    }
    AloneNearer(s, c, ch);
  }

  lemma WaiterNearer(s: State, c: nat, ch: Choice)
    requires Inv(s) && NoClones(s) && Enabled(s, c, ch) && s.w.readers == 0
    requires Announced(s.pcs[c]) || s.pcs[c].WokenWriter? || s.pcs[c].RemarkWriter? || s.pcs[c].WokenLoad?
    ensures Nearer(s, Step(s, c, ch))
  {
    assert PcOk(s.w, s.pcs[c]);
    if Announced(s.pcs[c]) { AnnouncedUsesUp(s, c, ch); } else { WokenWriterUsesUp(s, c, ch); }
    AloneNearer(s, c, ch);
  }

  lemma TransferNearer(s: State, c: nat, ch: Choice)
    requires Inv(s) && NoClones(s) && Enabled(s, c, ch) && s.pcs[c].Transfer?
    ensures Nearer(s, Step(s, c, ch))
  {
    assert PcOk(s.w, s.pcs[c]);
    TransferUsesUp(s, c, ch);
    AloneNearer(s, c, ch);
  }

  lemma HandUnlockNearer(s: State, c: nat, ch: Choice)
    requires NoClones(s) && Enabled(s, c, ch) && s.pcs[c].HandUnlock?
    ensures Nearer(s, Step(s, c, ch))
  {
    HandUnlockUsesUp(s, c, ch);
    AloneNearer(s, c, ch);
  }

  lemma XorNearer(s: State, c: nat, ch: Choice)
    requires Inv(s) && NoClones(s) && Enabled(s, c, ch) && (s.pcs[c].HandXor? || s.pcs[c].ReadersXor?)
    ensures Nearer(s, Step(s, c, ch))
  {
    assert PcOk(s.w, s.pcs[c]);
    XorUsesUp(s, c, ch);
    AloneNearer(s, c, ch);
  }

  lemma ReaderNearer(s: State, c: nat, ch: Choice)
    requires Inv(s) && NoClones(s) && Enabled(s, c, ch) && ProfileOf(s.pcs[c]).units > 0 && !s.pcs[c].WakeReaders?
    ensures Nearer(s, Step(s, c, ch))
  {
    assert PcOk(s.w, s.pcs[c]);
    match s.pcs[c] {
      case HoldRead(_, _) => GuardUsesUp(s, c, ch);
      case DropRead(_, _) => DropReadUsesUp(s, c, ch);
      case Settle(_, _) => SettleUsesUp(s, c, ch);
      case ConvertXor(_, _) => XorUsesUp(s, c, ch);
      case _ => WokenUsesUp(s, c, ch);
    }
    AloneNearer(s, c, ch);
  }

  /** Waking a parked writer. */
  lemma WakeOneNearer(s: State, c: nat, target: nat)
    requires NoClones(s) && Enabled(s, c, WakeOne(target)) && s.pcs[c].HandWake?
    ensures Nearer(s, Step(s, c, WakeOne(target)))
  {
    var t := Step(s, c, WakeOne(target));
    ResumeIsDone(s.pcs[c].next);
    assert forall k: nat :: k < |t.pcs| && k != c && k != target ==> t.pcs[k] == s.pcs[k];
    assert target in Sleepers(s.pcs) && target !in Sleepers(t.pcs);
    assert Sleepers(t.pcs) <= Sleepers(s.pcs);
  }

  lemma WakeNoneNearer(s: State, c: nat, ch: Choice)
    requires NoClones(s) && Enabled(s, c, ch) && s.pcs[c].HandWake? && ch.WakeNone?
    ensures Nearer(s, Step(s, c, ch))
  {
    WakeNoneUsesUp(s, c, ch);
    UsedUp(s, Step(s, c, ch), c);
  }

  lemma WokenWakes(pcs: seq<Pc>, woken: set<nat>, k: nat)
    requires woken <= ParkedReaders(pcs) && k < |pcs| && CloneSource(pcs[k]).None?
    ensures var r := WakeAll(pcs, woken)[k]; CloneSource(r).None? && (Parked(r) <==> Parked(pcs[k]) && k !in woken)
  {
    if k in woken { assert k in ParkedReaders(pcs); }
  }

  lemma WakeAllNearer(s: State, t: State, c: nat, woken: set<nat>, pc: Pc)
    requires NoClones(s) && c < |s.pcs| && !Parked(s.pcs[c])
    requires woken <= ParkedReaders(s.pcs) && woken != {}
    requires t.pcs == WakeAll(s.pcs, woken)[c := pc] && (pc.RemarkReader? || pc.Settle?)
    ensures Nearer(s, t)
  {
    forall k: nat | k < |t.pcs|
      ensures CloneSource(t.pcs[k]).None? && (Parked(t.pcs[k]) ==> Parked(s.pcs[k]) && k !in woken)
    {
      WokenWakes(s.pcs, woken, k);
    }
    var i: nat :| i in woken;
    assert i in ParkedReaders(s.pcs);
    assert i in Sleepers(s.pcs) && i !in Sleepers(t.pcs);
    assert Sleepers(t.pcs) <= Sleepers(s.pcs);
  }

  lemma WakeSomeNearer(s: State, c: nat, after: After, woken: set<nat>)
    requires NoClones(s) && c < |s.pcs| && s.pcs[c] == WakeReaders(after)
    requires woken <= ParkedReaders(s.pcs) && woken != {}
    ensures Nearer(s, WakeReadersStep(s, c, after, woken))
  {
    var n := |woken|;
    var pc := if n == MAX_WAKED_READERS then RemarkReader(n, after) else Settle(n, after);
    WakeAllNearer(s, WakeReadersStep(s, c, after, woken), c, woken, pc);
  }

  lemma WakeNobodyNearer(s: State, c: nat, ch: Choice)
    requires NoClones(s) && Enabled(s, c, ch) && s.pcs[c].WakeReaders? && ch.woken == {}
    ensures Nearer(s, Step(s, c, ch))
  {
    WakeNobodyUsesUp(s, c, ch);
    assert WakeAll(s.pcs, {}) == s.pcs;
    UsedUp(s, Step(s, c, ch), c);
  }

  // ---------- who is let go first ----------

  /** With readers inside, one of them. */
  lemma LetReaderGo(s: State) returns (c: nat, ch: Choice)
    requires Inv(s) && NoClones(s) && s.w.readers > 0
    ensures Enabled(s, c, ch) && Nearer(s, Step(s, c, ch))
  {
    c := SumPositive(Units, s.pcs);
    assert !Borrowed(s.pcs, c);
    ch := CanMove(s, c);
    if !s.pcs[c].WakeReaders? { ReaderNearer(s, c, ch); }
    else if ch.woken == {} { WakeNobodyNearer(s, c, ch); }
    else { WakeSomeNearer(s, c, s.pcs[c].after, ch.woken); }
  }

  /** Otherwise the owner or the agent. */
  lemma LetOwnerGo(s: State, c: nat) returns (ch: Choice)
    requires Inv(s) && NoClones(s) && s.w.readers == 0 && c < |s.pcs|
    requires ProfileOf(s.pcs[c]).token > 0 || ProfileOf(s.pcs[c]).agent > 0
    ensures Enabled(s, c, ch) && Nearer(s, Step(s, c, ch))
  {
    ch := CanMove(s, c);
    if s.pcs[c].HandWake? && ch.WakeOne? { WakeOneNearer(s, c, ch.target); }
    else if s.pcs[c].HandWake? { WakeNoneNearer(s, c, ch); }
    else if Exclusive(s.pcs[c]) { ch := OwnerGoes(s, c); }
    else if s.pcs[c].Transfer? { TransferNearer(s, c, ch); }
    else if s.pcs[c].HandUnlock? { HandUnlockNearer(s, c, ch); }
    else if s.pcs[c].HandXor? || s.pcs[c].ReadersXor? { XorNearer(s, c, ch); }
    else { WaiterNearer(s, c, ch); }
  }

  lemma OwnerGoes(s: State, c: nat) returns (ch: Choice)
    requires Inv(s) && NoClones(s) && c < |s.pcs| && Exclusive(s.pcs[c])
    ensures Enabled(s, c, ch) && Nearer(s, Step(s, c, ch))
  {
    ch := if s.pcs[c].HoldWrite? then DropGuard else GO;
    OwnerNearer(s, c, ch);
  }

  lemma SomebodyNearer(s: State) returns (c: nat, ch: Choice)
    requires Inv(s) && NoClones(s) && !Free(s.w)
    ensures Enabled(s, c, ch) && Nearer(s, Step(s, c, ch))
  {
    if s.w.readers > 0 {
      c, ch := LetReaderGo(s);
    } else {
      c := SumPositive(if s.w.locked then Token else Agent, s.pcs);
      ch := LetOwnerGo(s, c);
    }
  }

  /** From a state that can be reached from `s`, client `i` can be woken. */
  lemma {:induction false} GoOn(s: State, t: State, i: nat)
    requires CanReach(s, t) && Inv(t) && NoClones(t) && i < |t.pcs|
    ensures MayWake(s, i)
    decreases Sleepers(t.pcs), Left(t)
  {
    if Parked(t.pcs[i]) {
      ParkedHasReason(t, i);
      var c, ch := SomebodyNearer(t);
      Onward(s, t, c, ch);
      InvStep(t, c, ch);
      GoOn(s, Step(t, c, ch), i);
    }
  }

  /** Nobody is stranded.  In every reachable state in which nobody is in the middle of `ReadLock::clone`,
      every parked client is woken in some continuation. */
  lemma NobodyStranded(s: State, i: nat)
    requires Reachable(s) && NoClones(s) && i < |s.pcs| && Parked(s.pcs[i])
    ensures MayWake(s, i)
  {
    ReachableOk(s);
    Here(s);
    GoOn(s, s, i);
  }
}
