/** The inductive invariant of the futex phase locker and its preservation by every step. */
module FutexInvariant {
  import opened Phases
  import opened FutexProtocol

  // ---------- counting clients ----------

  /** The quantities counted over all clients: units of the reader field, ownership of LOCKED_BIT, the
      duty to hand over an unowned word, entries in `writer_count`, the wakers of readers, and commitments
      to wake readers or writers or to set their waiter bit again. */
  datatype Kind = Units | Token | Agent | Counted | Waker | ReaderDuty | WriterDuty

  datatype Profile = Profile(units: nat, token: nat, agent: nat, counted: nat, waker: nat,
                             readerDuty: nat, writerDuty: nat)

  const NOTHING := Profile(0, 0, 0, 0, 0, 0, 0)
  const READER := NOTHING.(units := 1)
  const OWNER := NOTHING.(token := 1)
  const HANDING := NOTHING.(agent := 1)
  const COUNTED := NOTHING.(counted := 1)

  /** One unit per read lock; a waker also answers for the READER_OVERF units it has not handed out. */
  function ProfileOf(pc: Pc): Profile {
    match pc
    case HoldRead(_, _) => READER
    case DropRead(_, _) => READER
    case WokenReader(_) => READER
    case ConvertXor(_, _) => READER.(waker := 1)
    case WakeReaders(_) => Profile(1 + MAX_WAKED_READERS, 0, 0, 0, 1, 1, 0)
    case RemarkReader(count, _) => Profile(1 + Monus(MAX_WAKED_READERS, count), 0, 0, 0, 1, 1, 0)
    case Settle(count, _) => Profile(1 + Monus(MAX_WAKED_READERS, count), 0, 0, 0, 1, 0, 0)
    case HoldWrite(_, _, _) => OWNER
    case DropWrite(_, _, _) => OWNER
    case DropWriteXor(_, _, _) => OWNER
    case Convert(_, _, _) => OWNER
    case WaitReaders(_) => OWNER
    case Withdraw(_, _) => OWNER
    case WokenWriter(_) => Profile(0, 1, 0, 1, 0, 0, 1)
    case RemarkWriter(_) => OWNER.(writerDuty := 1)
    case WokenLoad(_) => OWNER
    case HandWake(_, _, _) => OWNER.(writerDuty := 1)
    case HandUnlock(_, _) => OWNER
    case ReadersXor(unactivate, _) => if unactivate then OWNER else HANDING
    case Transfer(_, _) => HANDING
    case HandXor(_, _, _) => HANDING
    case ParkWriter(_, _) => COUNTED
    case ParkedWriter(_) => COUNTED
    case UncountWriter(_) => COUNTED
    case _ => NOTHING
  }

  function Weight(k: Kind, pc: Pc): nat {
    match k
    case Units => ProfileOf(pc).units
    case Token => ProfileOf(pc).token
    case Agent => ProfileOf(pc).agent
    case Counted => ProfileOf(pc).counted
    case Waker => ProfileOf(pc).waker
    case ReaderDuty => ProfileOf(pc).readerDuty
    case WriterDuty => ProfileOf(pc).writerDuty
  }

  /** The write guard proper: exclusive access and the right to change the phase. */
  predicate Exclusive(pc: Pc) { pc.HoldWrite? || pc.DropWrite? || pc.DropWriteXor? || pc.Convert? }

  /** A writer that set LOCKED_BIT while readers were inside. */
  predicate Announced(pc: Pc) { pc.WaitReaders? || pc.Withdraw? }

  predicate IsAgent(pc: Pc) { pc.Transfer? || pc.HandXor? || (pc.ReadersXor? && !pc.unactivate) }

  function Sum(k: Kind, pcs: seq<Pc>): nat {
    if pcs == [] then 0 else Sum(k, pcs[..|pcs|-1]) + Weight(k, pcs[|pcs|-1])
  }

  lemma {:induction false} SumUpdate(k: Kind, pcs: seq<Pc>, i: nat, pc: Pc)
    requires i < |pcs|
    ensures Sum(k, pcs[i := pc]) + Weight(k, pcs[i]) == Sum(k, pcs) + Weight(k, pc)
    decreases |pcs|
  {
    var n := |pcs| - 1;
    if i == n {
      assert pcs[i := pc][..n] == pcs[..n];
    } else {
      assert pcs[i := pc][..n] == pcs[..n][i := pc];
      SumUpdate(k, pcs[..n], i, pc);
    }
  }

  lemma {:induction false} SumAtLeast(k: Kind, pcs: seq<Pc>, i: nat)
    requires i < |pcs|
    ensures Weight(k, pcs[i]) <= Sum(k, pcs)
    decreases |pcs|
  {
    if i < |pcs| - 1 { SumAtLeast(k, pcs[..|pcs|-1], i); }
  }

  lemma {:induction false} SumPair(k: Kind, pcs: seq<Pc>, i: nat, j: nat)
    requires i < j < |pcs|
    ensures Weight(k, pcs[i]) + Weight(k, pcs[j]) <= Sum(k, pcs)
    decreases |pcs|
  {
    var n := |pcs| - 1;
    if j == n { SumAtLeast(k, pcs[..n], i); } else { SumPair(k, pcs[..n], i, j); }
  }

  /** No other client carries more than what `c` leaves of the sum. */
  lemma Others(k: Kind, pcs: seq<Pc>, c: nat)
    requires c < |pcs|
    ensures forall i: nat :: i < |pcs| && i != c ==> Weight(k, pcs[i]) + Weight(k, pcs[c]) <= Sum(k, pcs)
    ensures Weight(k, pcs[c]) <= Sum(k, pcs)
  {
    SumAtLeast(k, pcs, c);
    forall i: nat | i < |pcs| && i != c
      ensures Weight(k, pcs[i]) + Weight(k, pcs[c]) <= Sum(k, pcs)
    {
      if i < c { SumPair(k, pcs, i, c); } else { SumPair(k, pcs, c, i); }
    }
  }

  lemma {:induction false} SumPositive(k: Kind, pcs: seq<Pc>) returns (i: nat)
    requires Sum(k, pcs) > 0
    ensures i < |pcs| && Weight(k, pcs[i]) > 0
    decreases |pcs|
  {
    var n := |pcs| - 1;
    if Weight(k, pcs[n]) > 0 { i := n; } else { i := SumPositive(k, pcs[..n]); }
  }

  lemma {:induction false} SumIdle(k: Kind, pcs: seq<Pc>)
    requires forall i: nat :: i < |pcs| ==> Weight(k, pcs[i]) == 0
    ensures Sum(k, pcs) == 0
    decreases |pcs|
  {
    if pcs != [] { SumIdle(k, pcs[..|pcs|-1]); }
  }

  lemma WakeWeight(k: Kind, job: Job)
    ensures Weight(k, WokenReader(job)) == Weight(k, ParkedReader(job)) + (if k.Units? then 1 else 0)
  {
  }

  function Under(woken: set<nat>, n: nat): set<nat> { set i | i in woken && i < n }

  lemma CountBelow(woken: set<nat>, n: nat)
    ensures |Under(woken, n + 1)| == |Under(woken, n)| + (if n in woken then 1 else 0)
  {
    var before := Under(woken, n);
    assert Under(woken, n + 1) == if n in woken then before + {n} else before;
  }

  lemma SumSnoc(k: Kind, pcs: seq<Pc>, pc: Pc)
    ensures Sum(k, pcs + [pc]) == Sum(k, pcs) + Weight(k, pc)
  {
    assert (pcs + [pc])[..|pcs|] == pcs;
  }

  /** Waking parked readers adds one unit for each and changes no other count. */
  lemma {:induction false} SumWake(k: Kind, pcs: seq<Pc>, woken: set<nat>)
    requires forall i :: i in woken && i < |pcs| ==> pcs[i].ParkedReader?
    ensures Sum(k, WakeAll(pcs, woken)) == Sum(k, pcs) + (if k.Units? then |Under(woken, |pcs|)| else 0)
    decreases |pcs|
  {
    if pcs == [] {
      assert Under(woken, 0) == {};
    } else {
      var n := |pcs| - 1;
      var first := WakeAll(pcs[..n], woken);
      SumWake(k, pcs[..n], woken);
      CountBelow(woken, n);
      if n in woken {
        WakeWeight(k, pcs[n].job);
        assert WakeAll(pcs, woken) == first + [WokenReader(pcs[n].job)];
        SumSnoc(k, first, WokenReader(pcs[n].job));
      } else {
        assert WakeAll(pcs, woken) == first + [pcs[n]];
        SumSnoc(k, first, pcs[n]);
      }
    }
  }

  // ---------- the invariant ----------

  predicate OriginOk(origin: Origin, p: Phase) { origin.FromCall? ==> origin.call.how(p).Read? }

  predicate NextOk(next: Next) {
    match next
    case Finish => true
    case AnswerNone(call, p) => call.how(p).NoLock?
    case Retry(_) => true
  }

  predicate AfterOk(after: After, p: Phase) {
    match after
    case Keep(origin, q) => q == p && OriginOk(origin, p)
    case Release(next) => NextOk(next)
  }

  /** What the word and the local variables of a client satisfy at each program point. */
  predicate PcOk(w: Word, pc: Pc) {
    match pc
    case Idle => true
    case AnsweredNone(call, p) => call.how(p).NoLock? || call.onWait(p).NoLock?
    case Refused(call) => call.trying
    case Optimistic(_) => true
    case FastWrite(call, cur) => call.how(cur.phase).Write? && WriteLockable(cur) && cur.readers == 0
    case ReadCas(site, cur) => SiteOk(w, site) && !ReadersMax(cur) &&
      (!site.Cloning? ==> site.call.how(cur.phase).Read? && ReadLockable(cur))
    case ReadReload(site) => SiteOk(w, site)
    case SlowLoad(_) => true
    case SlowWrite(call, cur) => call.how(cur.phase).Write? && WriteLockable(cur) && cur.readers == 0
    case Announce(call, cur) => call.how(cur.phase).Write? && WriteLockable(cur) && cur.readers != 0
    case MarkWriter(call, cur) => !Free(cur)
    case MarkReader(_, cur) => !Free(cur)
    case WaitReaders(call) => call.how(w.phase).Write?
    case Withdraw(call, cur) => call.how(w.phase).Write? && cur.readers != 0
    case CountWriter(call, cur) => cur.ww
    case ParkWriter(call, cur) => cur.ww
    case UncountWriter(_) => true
    case ParkedWriter(_) => true
    case WokenWriter(call) => w.readers == 0
    case RemarkWriter(call) => w.readers == 0
    case WokenLoad(call) => w.readers == 0
    case ParkReader(_, cur) => cur.rw
    case ParkedReader(_) => true
    case WokenReader(_) => true
    case CloneLoad(_) => true
    case HoldRead(origin, p) => p == w.phase && OriginOk(origin, p)
    case HoldWrite(call, init, onUnlock) => Owned(w, init, onUnlock) && call.how(init).Write?
    case DropRead(p, next) => p == w.phase && NextOk(next)
    case DropWrite(init, onUnlock, next) => Owned(w, init, onUnlock) && NextOk(next)
    case DropWriteXor(init, onUnlock, next) => Owned(w, init, onUnlock) && NextOk(next)
    case Convert(origin, init, onUnlock) => Owned(w, init, onUnlock) && OriginOk(origin, onUnlock)
    case ConvertXor(origin, p) => p == w.phase && OriginOk(origin, p) && w.rw && w.readers < MAX_WAKED_READERS
    case Transfer(cur, next) => NextOk(next) && Snapshot(w, cur) && AgentNeeded(cur)
    case HandXor(prefer, cur, next) => NextOk(next) && Snapshot(w, cur) && cur.ww && (!prefer ==> !cur.rw)
    case HandWake(prefer, cur, next) => NextOk(next) && w.readers == 0 && (cur.rw ==> w.rw)
    case HandUnlock(prefer, next) => NextOk(next) && w.readers == 0
    case ReadersXor(unactivate, next) => NextOk(next) && w.readers == 0 && w.rw
    case WakeReaders(after) => AfterOk(after, w.phase)
    case RemarkReader(count, after) => AfterOk(after, w.phase) && count <= MAX_WAKED_READERS
    case Settle(count, after) => AfterOk(after, w.phase) && count <= MAX_WAKED_READERS
  }

  predicate Owned(w: Word, init: Phase, onUnlock: Phase) {
    w.readers == 0 && w.phase == init && Advances(init, onUnlock)
  }

  /** A lock was released and nobody owns the word, but waiters are announced. */
  predicate AgentNeeded(w: Word) { !w.locked && w.readers == 0 && HasWaiters(w) }

  /** What the agent of a hand-over last saw is still there: nobody else clears a waiter bit. */
  predicate Snapshot(w: Word, cur: Word) {
    HasWaiters(cur) && (cur.rw ==> w.rw) && (cur.ww ==> w.ww)
  }

  predicate SiteOk(w: Word, site: Site) {
    match site
    case Fast(_) => true
    case Slow(call) => call.how(w.phase).Read?
    case Try(call) => call.trying
    case Cloning(_) => true
  }

  /** The fairness counter leaves room for the hand-offs made since the watch began. */
  predicate FairOk(s: State) {
    s.watch ==>
      s.w.rw && s.handoffs < (if s.fairness % READ_FAIRNESS_PERIOD == 0 then READ_FAIRNESS_PERIOD
                              else s.fairness % READ_FAIRNESS_PERIOD)
  }

  /** A transfer that saw READ_WAITER at its entry is watched; while watched, one that is busy with a
      writer prefers writers on the strength of the present counter. */
  predicate WatchOk(s: State, pc: Pc) {
    && (pc.Transfer? && pc.cur.rw ==> s.watch)
    && (s.watch ==>
          match pc
          case Transfer(cur, _) => cur.rw
          case HandXor(prefer, cur, _) => cur.rw && prefer && s.fairness % READ_FAIRNESS_PERIOD != 0
          case HandWake(prefer, cur, _) => cur.rw && prefer && s.fairness % READ_FAIRNESS_PERIOD != 0
          case HandUnlock(_, _) => false
          case WakeReaders(_) => false
          case _ => true)
  }

  /** Each client on its own: its program point, and for a parked one the reason it will be woken. */
  predicate ClientOk(s: State, i: nat)
    requires i < |s.pcs|
  {
    && PcOk(s.w, s.pcs[i])
    && WatchOk(s, s.pcs[i])
    && (s.pcs[i].ParkedReader? ==> s.w.rw || Sum(ReaderDuty, s.pcs) > 0)
    && (s.pcs[i].ParkedWriter? ==> s.w.ww || Sum(WriterDuty, s.pcs) > 0)
  }

  /** A guard that is being cloned stays alive. */
  predicate BorrowsOk(pcs: seq<Pc>) {
    forall i: nat {:trigger CloneSource(pcs[i])} :: i < |pcs| && CloneSource(pcs[i]).Some? ==>
      CloneSource(pcs[i]).value < |pcs| && pcs[CloneSource(pcs[i]).value].HoldRead?
  }

  predicate CountsOk(s: State) {
    && Sum(Units, s.pcs) == s.w.readers < 2 * MAX_WAKED_READERS
    && Sum(Token, s.pcs) == (if s.w.locked then 1 else 0)
    && Sum(Agent, s.pcs) == (if !s.w.locked && s.w.readers == 0 && HasWaiters(s.w) then 1 else 0)
    && Sum(Counted, s.pcs) == s.writerCount
    && Sum(Waker, s.pcs) <= 1
  }

  predicate ClientsOk(s: State) {
    forall i: nat {:trigger s.pcs[i]} :: i < |s.pcs| ==> ClientOk(s, i)
  }

  predicate Inv(s: State) {
    CountsOk(s) && FairOk(s) && s.fairness < 0x1_0000 && BorrowsOk(s.pcs) && ClientsOk(s)
  }
}
