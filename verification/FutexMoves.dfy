/** What one step of the futex phase locker changes: the stepping client and those it wakes.  And where the
    wakers of readers, and plans to change the phase, come from. */
module FutexMoves {
  import opened Phases
  import opened FutexProtocol
  import opened FutexInvariant
  import opened FutexPreserved
  import opened FutexTheorems

  // ---------- a step changes nobody else but those it wakes ----------

  ghost predicate IsWoken(before: Pc, after: Pc) {
    || (before.ParkedReader? && after == WokenReader(before.job))
    || (before.ParkedWriter? && after == WokenWriter(before.call))
  }

  ghost predicate SameButWoken(before: seq<Pc>, after: seq<Pc>, c: nat) {
    |after| == |before| &&
    forall i: nat {:trigger after[i]} :: i < |before| && i != c ==>
      after[i] == before[i] || IsWoken(before[i], after[i])
  }

  lemma WakersChange(s: State, c: nat, ch: Choice)
    requires Enabled(s, c, ch) && (s.pcs[c].HandWake? || s.pcs[c].WakeReaders?)
    ensures SameButWoken(s.pcs, Step(s, c, ch).pcs, c)
  {
  }

  /** The step moves `c` alone. */
  ghost predicate MovesOne(before: seq<Pc>, after: seq<Pc>, c: nat) {
    c < |before| == |after| && after == before[c := after[c]]
  }

  lemma WaitersMove(s: State, c: nat, ch: Choice)
    requires Enabled(s, c, ch) && (Acquiring(s.pcs[c]) || Waiting(s.pcs[c]) || Waking(s.pcs[c]))
    ensures MovesOne(s.pcs, Step(s, c, ch).pcs, c)
  {
  }

  lemma HoldersMove(s: State, c: nat, ch: Choice)
    requires Enabled(s, c, ch) && !Acquiring(s.pcs[c]) && !Waiting(s.pcs[c]) && !Waking(s.pcs[c])
    requires !s.pcs[c].HandWake? && !s.pcs[c].WakeReaders?
    ensures MovesOne(s.pcs, Step(s, c, ch).pcs, c)
  {
  }

  lemma OneMoves(s: State, c: nat, ch: Choice)
    requires Enabled(s, c, ch) && !s.pcs[c].HandWake? && !s.pcs[c].WakeReaders?
    ensures MovesOne(s.pcs, Step(s, c, ch).pcs, c)
  {
    if Acquiring(s.pcs[c]) || Waiting(s.pcs[c]) || Waking(s.pcs[c]) { WaitersMove(s, c, ch); }
    else { HoldersMove(s, c, ch); }
  }

  lemma StepChanges(s: State, c: nat, ch: Choice)
    requires Enabled(s, c, ch)
    ensures SameButWoken(s.pcs, Step(s, c, ch).pcs, c)
  {
    if s.pcs[c].HandWake? || s.pcs[c].WakeReaders? { WakersChange(s, c, ch); }
    else { OneMoves(s, c, ch); }
  }

  // ---------- no waker and no plan comes out of nothing ----------

  /** About to wake readers. */
  predicate AtWake(pc: Pc) { pc.ConvertXor? || pc.WakeReaders? }

  /** Neither about to wake readers nor planning a change of phase. */
  predicate Quiet(pc: Pc) { !AtWake(pc) && (Exclusive(pc) ==> pc.init == pc.onUnlock) }

  lemma LoopQuiet(call: Call, cur: Word, spin: bool)
    ensures Quiet(SlowLoop(call, cur, spin)) && Quiet(OnWait(call, cur))
  {
  }

  lemma AttemptQuiet(call: Call, cur: Word)
    ensures Quiet(SecondAttempt(call, cur)) && Quiet(GiveUp(call))
  {
  }

  lemma ReadQuiet(site: Site, src: nat, cur: Word, spin: bool)
    ensures Quiet(Reloaded(site, cur, spin)) && Quiet(CloneLoop(src, cur, spin))
  {
  }

  lemma AcquiringQuiet(s: State, c: nat, ch: Choice)
    requires Enabled(s, c, ch) && Acquiring(s.pcs[c])
    ensures Quiet(Step(s, c, ch).pcs[c])
  {
    match s.pcs[c]
    case Optimistic(call) => AttemptQuiet(call, s.w);
    case FastWrite(call, _) => AttemptQuiet(call, s.w);
    case ReadCas(site, _) => ReadQuiet(site, 0, s.w, ch.spin);
    case ReadReload(site) => ReadQuiet(site, 0, s.w, ch.spin);
    case SlowLoad(call) => LoopQuiet(call, s.w, ch.spin);
    case SlowWrite(call, _) => LoopQuiet(call, s.w, ch.spin);
    case Announce(call, _) => LoopQuiet(call, s.w, ch.spin);
    case CloneLoad(src) => ReadQuiet(Cloning(src), src, s.w, ch.spin);
    case _ =>
  }

  lemma WaitingQuiet(s: State, c: nat, ch: Choice)
    requires Enabled(s, c, ch) && Waiting(s.pcs[c])
    ensures Quiet(Step(s, c, ch).pcs[c])
  {
    match s.pcs[c]
    case MarkWriter(call, _) => LoopQuiet(call, s.w, ch.spin);
    case MarkReader(job, _) =>
      if job.Lock? { LoopQuiet(job.call, s.w, ch.spin); } else { ReadQuiet(Cloning(job.src), job.src, s.w, ch.spin); }
    case Withdraw(call, cur) => LoopQuiet(call, cur.(ww := true, locked := false), false);
    case _ =>
  }

  lemma WakingQuiet(s: State, c: nat, ch: Choice)
    requires Enabled(s, c, ch) && Waking(s.pcs[c])
    ensures Quiet(Step(s, c, ch).pcs[c])
  {
  }

  lemma HoldingQuiet(s: State, c: nat, ch: Choice)
    requires Enabled(s, c, ch) && !Acquiring(s.pcs[c]) && !Waiting(s.pcs[c]) && !Waking(s.pcs[c])
    requires !Exclusive(s.pcs[c]) && !s.pcs[c].ConvertXor? && !s.pcs[c].ReadersXor?
    ensures Quiet(Step(s, c, ch).pcs[c])
  {
  }

  /** Only a conversion and a hand-over that found READ_WAITER come to wake readers, and only the holder of
      the write lock comes to plan. */
  lemma StepQuiet(s: State, c: nat, ch: Choice)
    requires Enabled(s, c, ch)
    requires !Exclusive(s.pcs[c]) && !s.pcs[c].ConvertXor? && !s.pcs[c].ReadersXor?
    ensures Quiet(Step(s, c, ch).pcs[c])
  {
    if Acquiring(s.pcs[c]) { AcquiringQuiet(s, c, ch); }
    else if Waiting(s.pcs[c]) { WaitingQuiet(s, c, ch); }
    else if Waking(s.pcs[c]) { WakingQuiet(s, c, ch); }
    else { HoldingQuiet(s, c, ch); }
  }
}
