/** What call a client of either locker is on, and that it goes through with it: from the call to an answer or
    a guard, and from the release of the guard to the end. */
module Errands {
  import opened Phases
  import opened FutexProtocol
  import opened FutexInvariant
  import opened FutexPreserved
  import opened FutexTheorems
  import opened FutexMoves
  import opened Lockers
  import S = Spinning

  /** `Calling` covers the way to a guard or an answer, `Answered` is to be told None, `Holding` a write guard,
      and `Ending` the release of one.  Read guards and clones are `Other`. */
  datatype Errand =
    | Rest
    | Calling(how: Phase -> LockNature, onWait: Phase -> LockNature, trying: bool)
    | Answered(how: Phase -> LockNature, onWait: Phase -> LockNature)
    | Refusal
    | Holding(how: Phase -> LockNature)
    | Ending
    | Other

  function CallErrand(call: Call): Errand { Calling(call.how, call.onWait, call.trying) }

  function NextErrand(next: Next): Errand {
    match next
    case Finish => Ending
    case AnswerNone(call, _) => CallErrand(call)
    case Retry(call) => CallErrand(call)
  }

  function JobErrand(job: Job): Errand {
    match job
    case Lock(call) => CallErrand(call)
    case Clone(_) => Other
  }

  function SiteErrand(site: Site): Errand { if site.Cloning? then Other else CallErrand(site.call) }

  function AfterErrand(after: After): Errand { if after.Keep? then Other else NextErrand(after.next) }

  function FutexErrand(pc: Pc): Errand {
    match pc
    case Idle => Rest
    case AnsweredNone(call, _) => Answered(call.how, call.onWait)
    case Refused(_) => Refusal
    case HoldWrite(call, _, _) => Holding(call.how)
    case ReadCas(site, _) => SiteErrand(site)
    case ReadReload(site) => SiteErrand(site)
    case MarkReader(job, _) => JobErrand(job)
    case ParkReader(job, _) => JobErrand(job)
    case ParkedReader(job) => JobErrand(job)
    case WokenReader(job) => JobErrand(job)
    case DropRead(_, next) => NextErrand(next)
    case DropWrite(_, _, next) => NextErrand(next)
    case DropWriteXor(_, _, next) => NextErrand(next)
    case Transfer(_, next) => NextErrand(next)
    case HandXor(_, _, next) => NextErrand(next)
    case HandWake(_, _, next) => NextErrand(next)
    case HandUnlock(_, next) => NextErrand(next)
    case ReadersXor(_, next) => NextErrand(next)
    case WakeReaders(after) => AfterErrand(after)
    case RemarkReader(_, after) => AfterErrand(after)
    case Settle(_, after) => AfterErrand(after)
    case CloneLoad(_) => Other
    case HoldRead(_, _) => Other
    case Convert(_, _, _) => Other
    case ConvertXor(_, _) => Other
    case _ => CallErrand(pc.call)
  }

  function SpinErrand(pc: S.SpinPc): Errand {
    match pc
    case Resting => Rest
    case GaveNone(call, _) => Answered(call.how, call.how)
    case GaveUp(_) => Refusal
    case Writer(call, _, _) => Holding(call.how)
    case Unlocking(_, _) => Ending
    case CopyLoading(_, _) => Other
    case Copying(_, _, _) => Other
    case Reader(_, _) => Other
    case Leaving(_) => Other
    case Converting(_, _) => Other
    case _ => Calling(pc.call.how, pc.call.how, pc.call.trying)
  }

  function ErrandAt(l: Locker, c: nat): Errand
    requires c < Clients(l)
  {
    match l
    case Futex(s) => FutexErrand(s.pcs[c])
    case Spin(r) => SpinErrand(r.pcs[c])
  }

  lemma HoldingOwns(l: Locker, c: nat)
    requires c < Clients(l)
    ensures ErrandAt(l, c).Holding? <==> At(l, c).Owns?
    ensures At(l, c).Owns? ==> ErrandAt(l, c) == Holding(At(l, c).how)
    ensures ErrandAt(l, c).Answered? <==> At(l, c).Told?
    ensures At(l, c).Told? ==> ErrandAt(l, c) == Answered(At(l, c).how, At(l, c).onWait)
  {
  }

  /** A `how` that never asks for a read lock. */
  ghost predicate NeverReads(how: Phase -> LockNature) { forall p :: !how(p).Read? }

  /** A client goes through with its errand. */
  ghost predicate Follows(a: Errand, b: Errand) {
    match a
    case Calling(how, onWait, trying) =>
      b == a || b == Holding(how) || b == Answered(how, onWait) || (trying && b == Refusal)
    case Answered(_, _) => b == Rest
    case Refusal => b == Rest
    case Holding(_) => b == a || b == Ending
    case Ending => b == a || b == Rest
    case _ => true
  }

  // ---------- the futex locker ----------

  lemma LoopErrand(call: Call, cur: Word, spin: bool)
    ensures Follows(CallErrand(call), FutexErrand(SlowLoop(call, cur, spin)))
    ensures Follows(CallErrand(call), FutexErrand(OnWait(call, cur)))
  {
  }

  lemma AttemptErrand(call: Call, cur: Word)
    ensures Follows(CallErrand(call), FutexErrand(SecondAttempt(call, cur)))
    ensures Follows(CallErrand(call), FutexErrand(GiveUp(call)))
  {
  }

  lemma ReloadErrand(site: Site, cur: Word, spin: bool)
    requires !site.Cloning? && (site.Try? ==> site.call.trying)
    ensures Follows(CallErrand(site.call), FutexErrand(Reloaded(site, cur, spin)))
  {
  }

  lemma ResumeErrand(prefer: bool, cur: Word, next: Next)
    ensures Follows(NextErrand(next), FutexErrand(Resume(next)))
    ensures FutexErrand(HandOver(prefer, cur, next)) == NextErrand(next)
  {
  }

  lemma AwakeErrand(call: Call, p: Phase)
    requires NeverReads(call.how)
    ensures Follows(CallErrand(call), FutexErrand(WriterAwake(call, p)))
    ensures Follows(CallErrand(call), FutexErrand(ReaderAwake(Lock(call), p)))
  {
  }

  /** The errand of `c` in `s` is followed by that in `t`. */
  ghost predicate GoesThrough(s: State, t: State, c: nat) {
    c < |s.pcs| && c < |t.pcs| && Follows(FutexErrand(s.pcs[c]), FutexErrand(t.pcs[c]))
  }

  lemma AcquiringErrand(s: State, c: nat, ch: Choice)
    requires Enabled(s, c, ch) && Acquiring(s.pcs[c]) && FutexErrand(s.pcs[c]).Calling?
    requires !s.pcs[c].ReadCas? && !s.pcs[c].ReadReload? && !s.pcs[c].SlowWrite? && !s.pcs[c].Announce?
    requires NeverReads(FutexErrand(s.pcs[c]).how)
    ensures GoesThrough(s, Step(s, c, ch), c)
  {
    match s.pcs[c]
    case Optimistic(call) => AttemptErrand(call, s.w);
    case FastWrite(call, _) => AttemptErrand(call, s.w);
    case SlowLoad(call) => LoopErrand(call, s.w, ch.spin);
    case _ =>
  }

  lemma SlowErrand(s: State, c: nat, ch: Choice)
    requires Enabled(s, c, ch) && FutexErrand(s.pcs[c]).Calling?
    requires PcOk(s.w, s.pcs[c]) && (s.pcs[c].ReadReload? || s.pcs[c].SlowWrite? || s.pcs[c].Announce?)
    ensures GoesThrough(s, Step(s, c, ch), c)
  {
    match s.pcs[c]
    case ReadReload(site) => ReloadErrand(site, s.w, ch.spin);
    case SlowWrite(call, _) => LoopErrand(call, s.w, ch.spin);
    case Announce(call, _) => LoopErrand(call, s.w, ch.spin);
  }

  lemma MarkErrand(s: State, c: nat, ch: Choice)
    requires Enabled(s, c, ch) && FutexErrand(s.pcs[c]).Calling? && (s.pcs[c].MarkWriter? || s.pcs[c].MarkReader?)
    ensures GoesThrough(s, Step(s, c, ch), c)
  {
    match s.pcs[c]
    case MarkWriter(call, _) => LoopErrand(call, s.w, ch.spin);
    case MarkReader(job, _) => LoopErrand(job.call, s.w, ch.spin);
  }

  lemma WaitingErrand(s: State, c: nat, ch: Choice)
    requires Enabled(s, c, ch) && Waiting(s.pcs[c]) && !s.pcs[c].MarkWriter? && !s.pcs[c].MarkReader?
    requires FutexErrand(s.pcs[c]).Calling?
    ensures GoesThrough(s, Step(s, c, ch), c)
  {
    match s.pcs[c]
    case Withdraw(call, cur) => LoopErrand(call, cur.(ww := true, locked := false), false);
    case _ =>
  }

  lemma WakingErrand(s: State, c: nat, ch: Choice)
    requires Enabled(s, c, ch) && Waking(s.pcs[c]) && FutexErrand(s.pcs[c]).Calling?
    requires NeverReads(FutexErrand(s.pcs[c]).how)
    ensures GoesThrough(s, Step(s, c, ch), c)
  {
    match s.pcs[c]
    case WokenLoad(call) => AwakeErrand(call, s.w.phase);
    case WokenReader(job) => AwakeErrand(job.call, s.w.phase);
    case _ =>
  }

  lemma GuardErrand(s: State, c: nat, ch: Choice)
    requires Enabled(s, c, ch) && s.pcs[c].HoldWrite? && !ch.Downgrade?
    ensures GoesThrough(s, Step(s, c, ch), c)
  {
  }

  lemma ResumedErrand(s: State, t: State, c: nat, next: Next)
    requires c < |s.pcs| && FutexErrand(s.pcs[c]) == NextErrand(next) && t.pcs == s.pcs[c := Resume(next)]
    ensures GoesThrough(s, t, c)
  {
    ResumeErrand(false, s.w, next);
  }

  lemma NextFollows(next: Next)
    ensures Follows(NextErrand(next), NextErrand(next))
  {
  }

  lemma StaysOnErrand(s: State, t: State, c: nat, pc: Pc, next: Next)
    requires c < |s.pcs| && FutexErrand(s.pcs[c]) == NextErrand(next) == FutexErrand(pc) && t.pcs == s.pcs[c := pc]
    ensures GoesThrough(s, t, c)
  {
    NextFollows(next);
  }

  lemma TransfersErrand(s: State, t: State, c: nat, w: Word, next: Next)
    requires c < |s.pcs| && FutexErrand(s.pcs[c]) == NextErrand(next) && t.pcs == s.pcs[c := Transfer(w, next)]
    ensures GoesThrough(s, t, c)
  {
    StaysOnErrand(s, t, c, Transfer(w, next), next);
  }

  lemma DropReadErrand(s: State, c: nat, next: Next)
    requires c < |s.pcs| && s.pcs[c].DropRead? && s.pcs[c].next == next
    ensures GoesThrough(s, DropReadStep(s, c, next), c)
  {
    var t := DropReadStep(s, c, next);
    if s.w.readers == 1 && !s.w.locked && HasWaiters(s.w) {
      TransfersErrand(s, t, c, s.w.(readers := 0), next);
    } else {
      ResumedErrand(s, t, c, next);
    }
  }

  lemma DropWriteErrand(s: State, c: nat, init: Phase, onUnlock: Phase, next: Next)
    requires c < |s.pcs| && s.pcs[c] == DropWrite(init, onUnlock, next)
    ensures GoesThrough(s, DropWriteStep(s, c, init, onUnlock, next), c)
  {
    var t := DropWriteStep(s, c, init, onUnlock, next);
    if s.w == Pure(init).(locked := true) {
      ResumedErrand(s, t, c, next);
    } else {
      StaysOnErrand(s, t, c, DropWriteXor(init, onUnlock, next), next);
    }
  }

  lemma DropWriteXorErrand(s: State, c: nat, init: Phase, onUnlock: Phase, next: Next)
    requires c < |s.pcs| && s.pcs[c] == DropWriteXor(init, onUnlock, next)
    ensures GoesThrough(s, DropWriteXorStep(s, c, init, onUnlock, next), c)
  {
    var t := DropWriteXorStep(s, c, init, onUnlock, next);
    if HasWaiters(s.w) {
      TransfersErrand(s, t, c, Unlocked(s.w, init, onUnlock), next);
    } else {
      ResumedErrand(s, t, c, next);
    }
  }

  lemma HandXorErrand(s: State, c: nat, ch: Choice)
    requires Enabled(s, c, ch) && s.pcs[c].HandXor?
    ensures GoesThrough(s, Step(s, c, ch), c)
  {
  }

  lemma ReadersXorErrand(s: State, c: nat, ch: Choice)
    requires Enabled(s, c, ch) && s.pcs[c].ReadersXor?
    ensures GoesThrough(s, Step(s, c, ch), c)
  {
  }

  lemma TransferErrand(s: State, c: nat, cur: Word, next: Next)
    requires c < |s.pcs| && s.pcs[c] == Transfer(cur, next)
    ensures GoesThrough(s, TransferStep(s, c, cur, next), c)
  {
    ResumeErrand(s.fairness % READ_FAIRNESS_PERIOD != 0, cur, next);
  }

  lemma HandUnlockErrand(s: State, c: nat, prefer: bool, next: Next)
    requires c < |s.pcs| && s.pcs[c] == HandUnlock(prefer, next)
    ensures GoesThrough(s, HandUnlockStep(s, c, prefer, next), c)
  {
    ResumeErrand(prefer, s.w.(locked := false), next);
  }

  lemma WakeOneErrand(s: State, c: nat, ch: Choice)
    requires Enabled(s, c, ch) && s.pcs[c].HandWake? && ch.WakeOne?
    ensures GoesThrough(s, Step(s, c, ch), c)
  {
    ResumeErrand(false, s.w, s.pcs[c].next);
  }

  lemma WakeNoneErrand(s: State, c: nat, ch: Choice)
    requires Enabled(s, c, ch) && s.pcs[c].HandWake? && ch.WakeNone?
    ensures GoesThrough(s, Step(s, c, ch), c)
  {
  }

  lemma WakerErrand(s: State, t: State, c: nat, count: nat, after: After)
    requires c < |s.pcs| && s.pcs[c] == WakeReaders(after) && c < |t.pcs|
    requires t.pcs[c] == RemarkReader(count, after) || t.pcs[c] == Settle(count, after)
    ensures GoesThrough(s, t, c)
  {
  }

  lemma WakeReadersErrand(s: State, c: nat, after: After, woken: set<nat>)
    requires c < |s.pcs| && s.pcs[c] == WakeReaders(after)
    ensures GoesThrough(s, WakeReadersStep(s, c, after, woken), c)
  {
    WakerErrand(s, WakeReadersStep(s, c, after, woken), c, |woken|, after);
  }

  lemma RemarkErrand(s: State, c: nat, ch: Choice)
    requires Enabled(s, c, ch) && s.pcs[c].RemarkReader?
    ensures GoesThrough(s, Step(s, c, ch), c)
  {
  }

  lemma SettleErrand(s: State, c: nat, count: nat, after: After)
    requires c < |s.pcs| && s.pcs[c] == Settle(count, after)
    ensures GoesThrough(s, SettleStep(s, c, count, after), c)
  {
  }

  lemma ReleaseErrand(s: State, c: nat, ch: Choice)
    requires Enabled(s, c, ch) && !Acquiring(s.pcs[c]) && !Waiting(s.pcs[c]) && !Waking(s.pcs[c])
    requires FutexErrand(s.pcs[c]) != Other && !s.pcs[c].HoldWrite?
    ensures GoesThrough(s, Step(s, c, ch), c)
  {
    match s.pcs[c]
    case DropRead(_, next) => DropReadErrand(s, c, next);
    case DropWrite(init, onUnlock, next) => DropWriteErrand(s, c, init, onUnlock, next);
    case DropWriteXor(init, onUnlock, next) => DropWriteXorErrand(s, c, init, onUnlock, next);
    case Transfer(cur, next) => TransferErrand(s, c, cur, next);
    case HandUnlock(prefer, next) => HandUnlockErrand(s, c, prefer, next);
    case HandWake(_, _, _) => if ch.WakeOne? { WakeOneErrand(s, c, ch); } else { WakeNoneErrand(s, c, ch); }
    case WakeReaders(after) => WakeReadersErrand(s, c, after, ch.woken);
    case RemarkReader(_, _) => RemarkErrand(s, c, ch);
    case Settle(count, after) => SettleErrand(s, c, count, after);
    case HandXor(_, _, _) => HandXorErrand(s, c, ch);
    case ReadersXor(_, _) => ReadersXorErrand(s, c, ch);
  }

  lemma CallStepErrand(s: State, c: nat, ch: Choice)
    requires Enabled(s, c, ch) && FutexErrand(s.pcs[c]).Calling? && NeverReads(FutexErrand(s.pcs[c]).how)
    requires Acquiring(s.pcs[c]) || Waiting(s.pcs[c]) || Waking(s.pcs[c])
    requires PcOk(s.w, s.pcs[c]) && !s.pcs[c].ReadCas?
    ensures GoesThrough(s, Step(s, c, ch), c)
  {
    var pc := s.pcs[c];
    if pc.ReadReload? || pc.SlowWrite? || pc.Announce? { SlowErrand(s, c, ch); }
    else if pc.MarkWriter? || pc.MarkReader? { MarkErrand(s, c, ch); }
    else if Acquiring(pc) { AcquiringErrand(s, c, ch); }
    else if Waiting(pc) { WaitingErrand(s, c, ch); }
    else { WakingErrand(s, c, ch); }
  }

  /** In the futex locker a client goes through with an errand that never asks for a read lock. */
  lemma FutexFollows(s: State, c: nat, ch: Choice)
    requires Enabled(s, c, ch) && PcOk(s.w, s.pcs[c]) && !ch.Downgrade?
    requires FutexErrand(s.pcs[c]).Calling? ==> NeverReads(FutexErrand(s.pcs[c]).how)
    ensures GoesThrough(s, Step(s, c, ch), c)
  {
    if s.pcs[c].ReadCas? { ReadCasErrand(s, c, ch); }
    else if s.pcs[c].HoldWrite? { GuardErrand(s, c, ch); }
    else if FutexErrand(s.pcs[c]).Calling? && (Acquiring(s.pcs[c]) || Waiting(s.pcs[c]) || Waking(s.pcs[c])) {
      CallStepErrand(s, c, ch);
    } else if FutexErrand(s.pcs[c]).Calling? || FutexErrand(s.pcs[c]).Ending? {
      ReleaseErrand(s, c, ch);
    } else {
      OneMore(s, c, ch);
    }
  }

  /** A read lock is only asked for on an errand that reads. */
  lemma ReadCasErrand(s: State, c: nat, ch: Choice)
    requires Enabled(s, c, ch) && PcOk(s.w, s.pcs[c]) && s.pcs[c].ReadCas?
    requires FutexErrand(s.pcs[c]).Calling? ==> NeverReads(FutexErrand(s.pcs[c]).how)
    ensures FutexErrand(s.pcs[c]).Other? && GoesThrough(s, Step(s, c, ch), c)
  {
    if FutexErrand(s.pcs[c]).Calling? { assert false; }
    OneMore(s, c, ch);
  }

  lemma OneMore(s: State, c: nat, ch: Choice)
    requires Enabled(s, c, ch) && !FutexErrand(s.pcs[c]).Calling?
    requires !FutexErrand(s.pcs[c]).Holding? && !FutexErrand(s.pcs[c]).Ending?
    ensures GoesThrough(s, Step(s, c, ch), c)
  {
    StepChanges(s, c, ch);
  }

  /** Whoever is woken is on the errand it parked on. */
  lemma WokenErrand(before: Pc, after: Pc)
    requires before == after || IsWoken(before, after)
    ensures FutexErrand(before) == FutexErrand(after)
  {
  }

  lemma FutexOthersErrand(s: State, c: nat, ch: Choice, i: nat)
    requires Enabled(s, c, ch) && i < |s.pcs| && i != c
    ensures i < |Step(s, c, ch).pcs| && FutexErrand(Step(s, c, ch).pcs[i]) == FutexErrand(s.pcs[i])
  {
    StepChanges(s, c, ch);
    WokenErrand(s.pcs[i], Step(s, c, ch).pcs[i]);
  }

  // ---------- the spinning locker ----------

  lemma SpinLoopErrand(call: S.SpinCall, cur: Word, spin: bool)
    ensures Follows(Calling(call.how, call.how, call.trying), SpinErrand(S.SpinLoop(call, cur)))
    ensures Follows(Calling(call.how, call.how, call.trying), SpinErrand(S.Afterwards(call, cur)))
    ensures Follows(Calling(call.how, call.how, call.trying), SpinErrand(S.ReadFailed(call, cur, spin)))
  {
  }

  lemma SpinFollows(r: S.Spin, c: nat, k: S.Pick, t: S.Spin)
    requires S.Able(r, c, k) && S.SpinStep(r, c, k) == Some(t) && S.SpinPcOk(r.w, r.pcs[c]) && !k.Convert?
    requires SpinErrand(r.pcs[c]).Calling? ==> NeverReads(SpinErrand(r.pcs[c]).how)
    ensures c < |t.pcs| && Follows(SpinErrand(r.pcs[c]), SpinErrand(t.pcs[c]))
  {
    match r.pcs[c]
    case Hinting(call) => SpinLoopErrand(call, r.w, false);
    case Writing(call, _) => SpinLoopErrand(call, r.w, false);
    case Loading(call) => SpinLoopErrand(call, r.w, false);
    case _ =>
  }

  // ---------- either locker ----------

  /** A client that never asks for a read lock goes through with its errand: it comes to hold a write guard at
      most once, and rests when it has been told None or has released the guard. */
  lemma GoesFollows(l: Locker, c: nat, m: Move, k: Locker)
    requires Live(l) && Goes(l, c, m, k) && c < Clients(l) && !Downgrades(m)
    requires ErrandAt(l, c).Calling? ==> NeverReads(ErrandAt(l, c).how)
    ensures c < Clients(k) && Follows(ErrandAt(l, c), ErrandAt(k, c))
  {
    match l
    case Futex(s) =>
      ReachableOk(s);
      assert PcOk(s.w, s.pcs[c]);
      FutexFollows(s, c, m.ch);
    case Spin(r) =>
      S.SpinReachableOk(r);
      S.Inside(r, c);
      SpinFollows(r, c, m.k, k.r);
  }

  /** The step of `c` leaves the others on their errands. */
  lemma OthersErrands(l: Locker, c: nat, m: Move, k: Locker, i: nat)
    requires Goes(l, c, m, k) && i < Clients(l) && i != c
    ensures i < Clients(k) && ErrandAt(k, i) == ErrandAt(l, i)
  {
    match l
    case Futex(s) => FutexOthersErrand(s, c, m.ch, i);
    case Spin(r) => SpinMovesOne(r, c, m.k);
  }
}
