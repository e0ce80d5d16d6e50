/** What holds in every reachable state and along every run of the futex phase locker. */
module FutexTheorems {
  import opened Phases
  import opened FutexProtocol
  import opened FutexInvariant
  import opened FutexPreserved
  import PhasedLock

  // ---------- runs ----------

  /** A new locker in phase `p`, and `n` clients that may come to use it. */
  function Start(p: Phase, n: nat): State { State(Pure(p), 0, 0, seq(n, _ => Idle), false, 0) }

  /** One move of the scheduler: which client steps, and with which choice. */
  datatype Label = Label(c: nat, ch: Choice)

  ghost predicate IsRun(states: seq<State>, labels: seq<Label>) {
    && |states| == |labels| + 1
    && (exists p: Phase, n: nat :: states[0] == Start(p, n))
    && forall k: nat {:trigger labels[k]} :: k < |labels| ==>
         Enabled(states[k], labels[k].c, labels[k].ch) && states[k + 1] == Step(states[k], labels[k].c, labels[k].ch)
  }

  ghost predicate Reachable(s: State) {
    exists states: seq<State>, labels: seq<Label> :: IsRun(states, labels) && states[|states| - 1] == s
  }

  lemma StartOk(p: Phase, n: nat)
    ensures Inv(Start(p, n))
  {
    var s := Start(p, n);
    forall k: Kind
      ensures Sum(k, s.pcs) == 0
    {
      SumIdle(k, s.pcs);
    }
    assert Sum(Units, s.pcs) == 0 && Sum(Token, s.pcs) == 0 && Sum(Agent, s.pcs) == 0;
    assert Sum(Counted, s.pcs) == 0 && Sum(Waker, s.pcs) == 0;
    forall i: nat | i < |s.pcs|
      ensures ClientOk(s, i)
    {
      assert s.pcs[i] == Idle;
    }
    assert FairOk(s) && BorrowsOk(s.pcs) && ClientsOk(s);
  }

  /** The invariant holds all along a run. */
  lemma {:induction false} RunOk(states: seq<State>, labels: seq<Label>, k: nat)
    requires IsRun(states, labels) && k < |states|
    ensures Inv(states[k])
    decreases k
  {
    if k == 0 {
      var p: Phase, n: nat :| states[0] == Start(p, n);
      StartOk(p, n);
    } else {
      RunOk(states, labels, k - 1);
      InvStep(states[k - 1], labels[k - 1].c, labels[k - 1].ch);
    }
  }

  lemma ReachableOk(s: State)
    requires Reachable(s)
    ensures Inv(s)
  {
    var states: seq<State>, labels: seq<Label> :| IsRun(states, labels) && states[|states| - 1] == s;
    RunOk(states, labels, |states| - 1);
  }

  lemma Extend(s: State, c: nat, ch: Choice)
    requires Reachable(s) && Enabled(s, c, ch)
    ensures Reachable(Step(s, c, ch))
  {
    var states: seq<State>, labels: seq<Label> :| IsRun(states, labels) && states[|states| - 1] == s;
    var states', labels' := states + [Step(s, c, ch)], labels + [Label(c, ch)];
    forall k: nat | k < |labels'|
      ensures Enabled(states'[k], labels'[k].c, labels'[k].ch)
      ensures states'[k + 1] == Step(states'[k], labels'[k].c, labels'[k].ch)
    {
      if k < |labels| { assert labels[k] == labels'[k]; }
    }
    assert states'[0] == states[0];
    assert IsRun(states', labels');
  }

  // ---------- safety ----------

  /** A live read lock: a guard, or one that is being released, converted to, or handed out. */
  predicate ReadHeld(pc: Pc) {
    match pc
    case HoldRead(_, _) => true
    case DropRead(_, _) => true
    case ConvertXor(_, _) => true
    case WakeReaders(after) => after.Keep?
    case RemarkReader(_, after) => after.Keep?
    case Settle(_, after) => after.Keep?
    case _ => false
  }

  /** Beside an exclusive client no other owns LOCKED_BIT, announces itself, or has a reader unit. */
  lemma HeldApart(s: State, i: nat, j: nat)
    requires Inv(s) && i < |s.pcs| && j < |s.pcs| && i != j && Exclusive(s.pcs[i])
    ensures ProfileOf(s.pcs[j]).token == 0 && ProfileOf(s.pcs[j]).units == 0
    ensures s.w.locked && s.w.readers == 0
  {
    Others(Token, s.pcs, i);
    SumAtLeast(Units, s.pcs, j);
  }

  /** Mutual exclusion: a live write lock never coexists with another write lock or a live read lock. */
  lemma MutualExclusion(s: State, i: nat, j: nat)
    requires Reachable(s) && i < |s.pcs| && j < |s.pcs| && i != j
    requires Exclusive(s.pcs[i])
    ensures !Exclusive(s.pcs[j]) && !ReadHeld(s.pcs[j]) && !s.pcs[j].WokenReader?
    ensures s.w.locked && s.w.readers == 0
  {
    ReachableOk(s);
    HeldApart(s, i, j);
  }

  predicate Parked(pc: Pc) { pc.ParkedReader? || pc.ParkedWriter? }

  /** Outside every operation: no guard, no call in progress. */
  predicate AtRest(pc: Pc) { pc.Idle? || pc.AnsweredNone? || pc.Refused? }

  /** LOCKED_BIT has exactly one owner; with readers inside, it is an announced writer (or the waker of a
      conversion sees one), never a holder of the write lock. */
  lemma LockedHasOneOwner(s: State) returns (i: nat)
    requires Reachable(s) && s.w.locked
    ensures i < |s.pcs| && ProfileOf(s.pcs[i]).token == 1 && !Parked(s.pcs[i])
    ensures forall j: nat :: j < |s.pcs| && j != i ==> ProfileOf(s.pcs[j]).token == 0
    ensures s.w.readers != 0 ==> Announced(s.pcs[i])
  {
    ReachableOk(s);
    i := SumPositive(Token, s.pcs);
    Others(Token, s.pcs, i);
    SumAtLeast(Token, s.pcs, i);
    forall j: nat | j < |s.pcs| && j != i
      ensures ProfileOf(s.pcs[j]).token == 0
    {
      assert Weight(Token, s.pcs[j]) + Weight(Token, s.pcs[i]) <= 1;
    }
    assert s.pcs[i] == s.pcs[i];
  }

  /** The fate of a writer that announced itself: it becomes the owner exactly when the reader field has
      reached 0, and otherwise goes on waiting or withdraws, leaving WRITE_WAITER with readers inside. */
  lemma AnnouncedWriterFate(s: State, c: nat, ch: Choice)
    requires Reachable(s) && Enabled(s, c, ch) && Announced(s.pcs[c])
    ensures var t := Step(s, c, ch);
      && (t.pcs[c].HoldWrite? <==> s.w.readers == 0)
      && (!t.pcs[c].HoldWrite? && !Announced(t.pcs[c]) ==> t.w.ww && !t.w.locked && t.w.readers != 0)
  {
    ReachableOk(s);
    assert PcOk(s.w, s.pcs[c]);
  }

  /** Reader-credit conservation.  The 21-bit field is the number of live read locks plus what wakers have
      not handed out yet; no addition carries into LOCKED_BIT and no subtraction underflows. */
  lemma CreditConservation(s: State)
    requires Reachable(s)
    ensures s.w.readers == Sum(Units, s.pcs) < 2 * MAX_WAKED_READERS
    ensures forall i: nat :: i < |s.pcs| ==> s.w.readers >= ProfileOf(s.pcs[i]).units
    ensures forall i: nat {:trigger s.pcs[i]} :: i < |s.pcs| ==>
      match s.pcs[i]
      case WokenReader(_) => s.w.readers > 0
      case DropRead(_, _) => s.w.readers > 0
      case Settle(count, _) => count <= MAX_WAKED_READERS && s.w.readers > MAX_WAKED_READERS - count
      case ReadCas(_, cur) => s.w == cur ==> s.w.readers % MAX_WAKED_READERS + 1 < MAX_WAKED_READERS
      case ConvertXor(_, _) => s.w.readers + MAX_WAKED_READERS < 2 * MAX_WAKED_READERS
      case _ => true
  {
    ReachableOk(s);
    forall i: nat | i < |s.pcs|
      ensures s.w.readers >= ProfileOf(s.pcs[i]).units
    {
      SumAtLeast(Units, s.pcs, i);
    }
    CreditCases(s);
  }

  lemma CreditCases(s: State)
    requires Inv(s)
    requires forall i: nat :: i < |s.pcs| ==> s.w.readers >= ProfileOf(s.pcs[i]).units
    ensures forall i: nat {:trigger s.pcs[i]} :: i < |s.pcs| ==>
      match s.pcs[i]
      case WokenReader(_) => s.w.readers > 0
      case DropRead(_, _) => s.w.readers > 0
      case Settle(count, _) => count <= MAX_WAKED_READERS && s.w.readers > MAX_WAKED_READERS - count
      case ReadCas(_, cur) => s.w == cur ==> s.w.readers % MAX_WAKED_READERS + 1 < MAX_WAKED_READERS
      case ConvertXor(_, _) => s.w.readers + MAX_WAKED_READERS < 2 * MAX_WAKED_READERS
      case _ => true
  {
  }

  lemma AgentProfile(pc: Pc)
    ensures Weight(Agent, pc) == if IsAgent(pc) then 1 else 0
  {
  }

  lemma AgentImpliesNeed(s: State, i: nat)
    requires CountsOk(s) && i < |s.pcs| && IsAgent(s.pcs[i])
    ensures AgentNeeded(s.w)
    ensures forall j: nat :: j < |s.pcs| && IsAgent(s.pcs[j]) ==> i == j
  {
    AgentProfile(s.pcs[i]);
    Others(Agent, s.pcs, i);
    forall j: nat | j < |s.pcs| && IsAgent(s.pcs[j])
      ensures i == j
    {
      AgentProfile(s.pcs[j]);
    }
  }

  /** Unique hand-over agent: the word is unowned with waiters exactly when one client hands it over. */
  lemma UniqueAgent(s: State)
    requires Reachable(s)
    ensures AgentNeeded(s.w) <==> exists i: nat :: i < |s.pcs| && IsAgent(s.pcs[i])
    ensures forall i: nat, j: nat :: i < |s.pcs| && j < |s.pcs| && IsAgent(s.pcs[i]) && IsAgent(s.pcs[j]) ==> i == j
  {
    ReachableOk(s);
    if AgentNeeded(s.w) {
      var i := SumPositive(Agent, s.pcs);
      AgentProfile(s.pcs[i]);
    }
    forall i: nat | i < |s.pcs| && IsAgent(s.pcs[i])
      ensures AgentNeeded(s.w)
      ensures forall j: nat :: j < |s.pcs| && IsAgent(s.pcs[j]) ==> i == j
    {
      AgentImpliesNeed(s, i);
    }
  }

  /** A client that is not parked and must still act on the word: it owns LOCKED_BIT, hands over, has a unit
      of the reader field, or is making a clone of a guard, which keeps that guard. */
  predicate Responsible(pc: Pc) {
    !Parked(pc) &&
    (ProfileOf(pc).token > 0 || ProfileOf(pc).agent > 0 || ProfileOf(pc).units > 0 || CloneSource(pc).Some?)
  }

  /** The word is free exactly when nobody is responsible for it. */
  lemma FreeIffNobody(s: State)
    requires Inv(s)
    ensures Free(s.w) <==> forall i: nat :: i < |s.pcs| ==> !Responsible(s.pcs[i])
  {
    if Free(s.w) {
      forall i: nat | i < |s.pcs|
        ensures !Responsible(s.pcs[i])
      {
        SumAtLeast(Token, s.pcs, i);
        SumAtLeast(Agent, s.pcs, i);
        SumAtLeast(Units, s.pcs, i);
        if CloneSource(s.pcs[i]).Some? { SumAtLeast(Units, s.pcs, CloneSource(s.pcs[i]).value); }
      }
    } else {
      var k := if s.w.locked then Token else if s.w.readers > 0 then Units else Agent;
      var i := SumPositive(k, s.pcs);
      assert Responsible(s.pcs[i]);
    }
  }

  // ---------- who can move ----------

  /** Some `n` elements of `x`, among them `i`. */
  lemma {:induction false} SomeOf(x: set<nat>, n: nat, i: nat) returns (y: set<nat>)
    requires i in x && 1 <= n <= |x|
    ensures y <= x && |y| == n && i in y
    decreases n
  {
    if n == 1 {
      y := {i};
    } else {
      assert |x - {i}| == |x| - 1 by { assert x == (x - {i}) + {i}; }
      var k :| k in x - {i};
      assert x == (x - {k}) + {k};
      var z := SomeOf(x - {k}, n - 1, i);
      y := z + {k};
    }
  }

  /** The kernel can wake as many readers as it should, and any given one of them. */
  lemma CanWake(s: State, c: nat, i: nat) returns (ch: Choice)
    requires c < |s.pcs| && s.pcs[c].WakeReaders? && i < |s.pcs| && s.pcs[i].ParkedReader?
    ensures Enabled(s, c, ch) && ch.WakeSet? && i in ch.woken
  {
    var x := ParkedReaders(s.pcs);
    assert i in x;
    assert |x| >= 1 by { assert x == (x - {i}) + {i}; }
    var woken := SomeOf(x, if |x| < MAX_WAKED_READERS then |x| else MAX_WAKED_READERS, i);
    ch := WakeSet(woken);
  }

  lemma CanWakeReaders(s: State, c: nat) returns (ch: Choice)
    requires c < |s.pcs| && s.pcs[c].WakeReaders?
    ensures Enabled(s, c, ch)
  {
    if i: nat :| i < |s.pcs| && s.pcs[i].ParkedReader? {
      ch := CanWake(s, c, i);
    } else {
      assert ParkedReaders(s.pcs) == {};
      ch := WakeSet({});
    }
  }

  lemma CanWakeWriter(s: State, c: nat) returns (ch: Choice)
    requires c < |s.pcs| && s.pcs[c].HandWake?
    ensures Enabled(s, c, ch)
  {
    if i: nat :| i < |s.pcs| && s.pcs[i].ParkedWriter? { ch := WakeOne(i); } else { ch := WakeNone; }
  }

  /** A responsible client has a choice, unless it holds a read guard that is being cloned. */
  lemma CanMove(s: State, c: nat) returns (ch: Choice)
    requires c < |s.pcs| && Responsible(s.pcs[c]) && !(s.pcs[c].HoldRead? && Borrowed(s.pcs, c))
    ensures Enabled(s, c, ch)
  {
    match s.pcs[c]
    case HoldRead(_, _) => ch := DropGuard;
    case HoldWrite(_, _, _) => ch := DropGuard;
    case WakeReaders(_) => ch := CanWakeReaders(s, c);
    case HandWake(_, _, _) => ch := CanWakeWriter(s, c);
    case _ => ch := Plain(false, false);
  }

  /** Committed to waking a parked writer, or to setting WRITE_WAITER again. */
  predicate WillRemark(s: State, pc: Pc) {
    pc.HandWake? || pc.RemarkWriter? || (pc.WokenWriter? && s.writerCount > 1)
  }

  /** Committed to waking parked readers, or to setting READ_WAITER again. */
  predicate WillWakeReaders(pc: Pc) { pc.WakeReaders? || pc.RemarkReader? }

  /** Parked in `ReadLock::clone`. */
  predicate ParkedClone(pc: Pc) { pc.ParkedReader? && pc.job.Clone? }

  /** Who is making a clone of the guard `c`. */
  lemma Borrower(s: State, c: nat) returns (k: nat)
    requires Borrowed(s.pcs, c) && forall k: nat :: k < |s.pcs| ==> !ParkedClone(s.pcs[k])
    ensures k < |s.pcs| && Responsible(s.pcs[k]) && !s.pcs[k].HoldRead?
  {
    k :| k < |s.pcs| && CloneSource(s.pcs[k]) == Some(c);
    assert !ParkedClone(s.pcs[k]);
  }

  /** Whoever keeps the word from being free can move, or is being cloned by somebody who can. */
  lemma SomebodyMoves(s: State) returns (j: nat, ch: Choice)
    requires Inv(s) && !Free(s.w)
    requires forall k: nat :: k < |s.pcs| ==> !ParkedClone(s.pcs[k])
    ensures j < |s.pcs| && Responsible(s.pcs[j]) && Enabled(s, j, ch)
  {
    FreeIffNobody(s);
    j :| j < |s.pcs| && Responsible(s.pcs[j]);
    if s.pcs[j].HoldRead? && Borrowed(s.pcs, j) { j := Borrower(s, j); }
    ch := CanMove(s, j);
  }

  lemma ReaderHasWaker(s: State, i: nat)
    requires Inv(s) && i < |s.pcs| && s.pcs[i].ParkedReader? && !s.w.rw
    ensures exists j: nat, ch: Choice :: Enabled(s, j, ch) && WillWakeReaders(s.pcs[j])
  {
    ParkedHasReason(s, i);
    var k: nat :| k < |s.pcs| && WillWakeReaders(s.pcs[k]);
    var ch := CanMove(s, k);
    assert Enabled(s, k, ch) && WillWakeReaders(s.pcs[k]);
  }

  lemma WriterHasWaker(s: State, i: nat)
    requires Inv(s) && i < |s.pcs| && s.pcs[i].ParkedWriter? && !s.w.ww
    ensures exists j: nat, ch: Choice :: Enabled(s, j, ch) && WillRemark(s, s.pcs[j])
  {
    ParkedHasReason(s, i);
    var k: nat :| k < |s.pcs| && WillRemark(s, s.pcs[k]);
    var ch := CanMove(s, k);
    assert Enabled(s, k, ch) && WillRemark(s, s.pcs[k]);
  }

  /** No lost wake-up.  While a client is parked, and nobody is parked in `ReadLock::clone`, the word is not
      free, somebody responsible for it can move, and either the waiter bit of the parked client is set or
      somebody who can move is committed to waking that class or to setting the bit again.  Module FutexClones
      says what a parked clone does to the queue. */
  lemma NoLostWakeup(s: State, i: nat)
    requires Reachable(s) && i < |s.pcs| && Parked(s.pcs[i])
    requires forall k: nat :: k < |s.pcs| ==> !ParkedClone(s.pcs[k])
    ensures !Free(s.w)
    ensures exists j: nat, ch: Choice :: Enabled(s, j, ch) && Responsible(s.pcs[j])
    ensures s.pcs[i].ParkedReader? && !s.w.rw ==>
      exists j: nat, ch: Choice :: Enabled(s, j, ch) && WillWakeReaders(s.pcs[j])
    ensures s.pcs[i].ParkedWriter? && !s.w.ww ==>
      exists j: nat, ch: Choice :: Enabled(s, j, ch) && WillRemark(s, s.pcs[j])
  {
    ReachableOk(s);
    ParkedHasReason(s, i);
    var j, ch := SomebodyMoves(s);
    if s.pcs[i].ParkedReader? && !s.w.rw { ReaderHasWaker(s, i); }
    if s.pcs[i].ParkedWriter? && !s.w.ww { WriterHasWaker(s, i); }
  }

  lemma ParkedReaderReason(s: State, i: nat)
    requires Inv(s) && i < |s.pcs| && s.pcs[i].ParkedReader? && !s.w.rw
    ensures exists j: nat :: j < |s.pcs| && WillWakeReaders(s.pcs[j])
    ensures s.w.readers > 0
  {
    assert s.pcs[i] == s.pcs[i];
    var j := SumPositive(ReaderDuty, s.pcs);
    SumAtLeast(Units, s.pcs, j);
    assert WillWakeReaders(s.pcs[j]);
  }

  lemma ParkedWriterReason(s: State, i: nat)
    requires Inv(s) && i < |s.pcs| && s.pcs[i].ParkedWriter? && !s.w.ww
    ensures exists j: nat :: j < |s.pcs| && WillRemark(s, s.pcs[j])
    ensures s.w.locked
  {
    assert s.pcs[i] == s.pcs[i];
    var j := SumPositive(WriterDuty, s.pcs);
    SumAtLeast(Token, s.pcs, j);
    Others(Counted, s.pcs, i);
    if s.pcs[j].WokenWriter? { assert Weight(Counted, s.pcs[i]) == 1 && Weight(Counted, s.pcs[j]) == 1; }
    assert WillRemark(s, s.pcs[j]);
  }

  lemma ParkedHasReason(s: State, i: nat)
    requires Inv(s) && i < |s.pcs| && Parked(s.pcs[i])
    ensures !Free(s.w)
    ensures s.pcs[i].ParkedReader? && !s.w.rw ==> exists j: nat :: j < |s.pcs| && WillWakeReaders(s.pcs[j])
    ensures s.pcs[i].ParkedWriter? && !s.w.ww ==> exists j: nat :: j < |s.pcs| && WillRemark(s, s.pcs[j])
  {
    if s.pcs[i].ParkedReader? && !s.w.rw { ParkedReaderReason(s, i); }
    if s.pcs[i].ParkedWriter? && !s.w.ww { ParkedWriterReason(s, i); }
  }

  /** Quiescence: outside every operation the word is exactly the phase byte, so reading it back as a phase
      cannot fail. */
  lemma Quiescence(s: State)
    requires Reachable(s)
    requires forall i: nat :: i < |s.pcs| ==> AtRest(s.pcs[i])
    ensures s.w == Pure(s.w.phase) && s.writerCount == 0
  {
    ReachableOk(s);
    forall k: Kind
      ensures Sum(k, s.pcs) == 0
    {
      SumIdle(k, s.pcs);
    }
    assert Sum(Agent, s.pcs) == 0 && Sum(Token, s.pcs) == 0 && Sum(Units, s.pcs) == 0 && Sum(Counted, s.pcs) == 0;
  }

  // ---------- lock natures ----------

  /** Fast, slow, try and wake-up paths agree: a guard is only handed out under a phase for which `how`
      answers its nature, and None is only answered under a phase for which `how` or `onWait` is None. */
  lemma NatureAgreement(s: State, i: nat)
    requires Reachable(s) && i < |s.pcs|
    ensures match s.pcs[i]
      case HoldRead(FromCall(call), p) => p == s.w.phase && call.how(p).Read?
      case HoldRead(Derived, p) => p == s.w.phase
      case HoldWrite(call, init, onUnlock) => init == s.w.phase && call.how(init).Write? && Advances(init, onUnlock)
      case AnsweredNone(call, p) => call.how(p).NoLock? || call.onWait(p).NoLock?
      case Refused(call) => call.trying
      case _ => true
  {
    ReachableOk(s);
    assert s.pcs[i] == s.pcs[i];
  }

  /** The arm `LockResult::None` of the read-or-initialize calls is dead. */
  lemma NoneArmIsDead(s: State, i: nat)
    requires Reachable(s) && i < |s.pcs| && s.pcs[i].AnsweredNone?
    ensures var call := s.pcs[i].call;
      !((forall p :: !call.how(p).NoLock?) && forall p :: !call.onWait(p).NoLock?)
  {
    NatureAgreement(s, i);
  }

  /** The arm `LockResult::Read` of the calls whose `how` never answers Read is dead. */
  lemma ReadArmIsDead(s: State, i: nat)
    requires Reachable(s) && i < |s.pcs| && s.pcs[i].HoldRead? && s.pcs[i].origin.FromCall?
    ensures !(forall p :: !s.pcs[i].origin.call.how(p).Read?)
  {
    NatureAgreement(s, i);
  }
}
