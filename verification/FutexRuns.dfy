/** The source's assertions, the one of them that can fail, and the fairness of hand-overs along runs. */
module FutexRuns {
  import opened Phases
  import opened FutexProtocol
  import opened FutexInvariant
  import opened FutexPreserved
  import opened FutexTheorems

  // ---------- the assertions in the source ----------

  /** What the source asserts when a client performs the operation at `pc`; the assertion on LOCKED_BIT of a
      conversion, sync.rs:601, is stated apart. */
  predicate SourceAsserts(s: State, pc: Pc) {
    match pc
    case Transfer(cur, _) => !cur.locked && cur.readers == 0 && HasWaiters(cur)        // sync.rs:332-333
    case HandXor(_, _, _) => s.w.ww && !s.w.locked && s.w.readers == 0                 // sync.rs:340-341, 378-383
    case HandUnlock(_, _) => s.w.locked                                                // sync.rs:363, 392
    case ReadersXor(unactivate, _) => s.w.locked == unactivate && s.w.readers % 2 == 0 // sync.rs:596-601
    case WokenLoad(_) => s.w.locked                                                    // sync.rs:1131
    case WokenReader(_) => s.w.readers != 0                                            // sync.rs:528, 1170
    case CountWriter(_, cur) => cur.ww &&                                            // sync.rs:1126, futex.rs:65
      (|s.pcs| < 0x1_0000_0000 ==> s.writerCount != 0xFFFF_FFFF)
    case UncountWriter(_) => s.writerCount != 0                                        // futex.rs:80
    case WokenWriter(_) => s.writerCount != 0                                          // futex.rs:80
    case ParkReader(_, cur) => cur.rw                                                  // sync.rs:1165
    case _ => true
  }

  lemma {:induction false} SumBound(pcs: seq<Pc>, c: nat)
    requires c < |pcs| && Weight(Counted, pcs[c]) == 0
    ensures Sum(Counted, pcs) < |pcs|
    decreases |pcs|
  {
    var n := |pcs| - 1;
    CountedAtMostOne(pcs[n]);
    if c < n { SumBound(pcs[..n], c); } else { SumAtMost(pcs[..n]); }
  }

  lemma {:induction false} SumAtMost(pcs: seq<Pc>)
    ensures Sum(Counted, pcs) <= |pcs|
    decreases |pcs|
  {
    if pcs != [] {
      CountedAtMostOne(pcs[|pcs| - 1]);
      SumAtMost(pcs[..|pcs| - 1]);
    }
  }

  lemma CountedAtMostOne(pc: Pc)
    ensures Weight(Counted, pc) <= 1
  {
  }

  lemma CountAsserts(s: State, c: nat)
    requires Inv(s) && c < |s.pcs|
    requires s.pcs[c].CountWriter? || s.pcs[c].UncountWriter? || s.pcs[c].WokenWriter?
    ensures SourceAsserts(s, s.pcs[c])
  {
    assert s.pcs[c] == s.pcs[c];
    SumAtLeast(Counted, s.pcs, c);
    if s.pcs[c].CountWriter? { SumBound(s.pcs, c); }
  }

  lemma WordAsserts(s: State, c: nat)
    requires Inv(s) && c < |s.pcs|
    requires !s.pcs[c].CountWriter? && !s.pcs[c].UncountWriter? && !s.pcs[c].WokenWriter?
    ensures SourceAsserts(s, s.pcs[c])
  {
    assert s.pcs[c] == s.pcs[c];
    SumAtLeast(Token, s.pcs, c);
    SumAtLeast(Agent, s.pcs, c);
    SumAtLeast(Units, s.pcs, c);
  }

  /** Every assertion of the source holds whenever it is evaluated. */
  lemma AssertsHold(s: State, c: nat)
    requires Reachable(s) && c < |s.pcs|
    ensures SourceAsserts(s, s.pcs[c])
  {
    ReachableOk(s);
    if s.pcs[c].CountWriter? || s.pcs[c].UncountWriter? || s.pcs[c].WokenWriter? {
      CountAsserts(s, c);
    } else {
      WordAsserts(s, c);
    }
  }

  // ---------- how a hand-over ends ----------

  /** When `transfer_lock` unlocks for good, the word is free and nobody is parked. */
  lemma HandOverFrees(s: State, c: nat, ch: Choice)
    requires Reachable(s) && Enabled(s, c, ch) && s.pcs[c].HandUnlock? && !HasWaiters(s.w)
    ensures Free(Step(s, c, ch).w)
    ensures forall i: nat :: i < |s.pcs| ==> !Parked(Step(s, c, ch).pcs[i])
  {
    ReachableOk(s);
    var t := Step(s, c, ch);
    assert PcOk(s.w, s.pcs[c]);
    Extend(s, c, ch);
    ReachableOk(t);
    forall i: nat | i < |s.pcs|
      ensures !Parked(t.pcs[i])
    {
      if Parked(t.pcs[i]) { ParkedHasReason(t, i); }
    }
  }

  /** When it returns after a wake-up, the writer it woke owns the lock alone. */
  lemma HandOverWakesOwner(s: State, c: nat, ch: Choice)
    requires Reachable(s) && Enabled(s, c, ch) && s.pcs[c].HandWake? && ch.WakeOne?
    ensures var t := Step(s, c, ch);
      t.pcs[ch.target].WokenWriter? && ProfileOf(t.pcs[ch.target]).token == 1 && t.w.locked && t.w.readers == 0
  {
    ReachableOk(s);
    assert PcOk(s.w, s.pcs[c]);
    SumAtLeast(Token, s.pcs, c);
  }

  /** When it wakes readers instead, its xor leaves LOCKED_BIT and READ_WAITER clear, nobody inside but itself,
      and room for all it may wake. */
  lemma HandOverLetsReadersIn(s: State, c: nat, ch: Choice)
    requires Reachable(s) && Enabled(s, c, ch) && s.pcs[c].ReadersXor?
    ensures Step(s, c, ch).w == Word(s.w.phase, 1 + MAX_WAKED_READERS, false, false, s.w.ww)
    ensures Step(s, c, ch).pcs[c] == WakeReaders(Release(s.pcs[c].next))
  {
    ReachableOk(s);
    WordAsserts(s, c);
    assert PcOk(s.w, s.pcs[c]);
  }

  lemma WokenAreWoken(s: State, c: nat, ch: Choice, i: nat)
    requires Enabled(s, c, ch) && s.pcs[c].WakeReaders? && i < |s.pcs|
    ensures |Step(s, c, ch).pcs| == |s.pcs|
    ensures i in ch.woken ==> s.pcs[i].ParkedReader? && Step(s, c, ch).pcs[i] == WokenReader(s.pcs[i].job)
    ensures i !in ch.woken && i != c ==> Step(s, c, ch).pcs[i] == s.pcs[i]
  {
    if i in ch.woken { assert i in ParkedReaders(s.pcs); }
  }

  /** With fewer than 2^20 woken, all were. */
  lemma AllAreWoken(s: State, c: nat, ch: Choice)
    requires Enabled(s, c, ch) && s.pcs[c].WakeReaders? && |ch.woken| < MAX_WAKED_READERS
    ensures ch.woken == ParkedReaders(s.pcs)
  {
    SameSet(ch.woken, ParkedReaders(s.pcs));
  }

  lemma {:induction false} SameSet(x: set<nat>, y: set<nat>)
    requires x <= y && |x| == |y|
    ensures x == y
    decreases |x|
  {
    if x == {} {
    } else {
      var k :| k in x;
      assert x == (x - {k}) + {k} && y == (y - {k}) + {k};
      SameSet(x - {k}, y - {k});
    }
  }

  /** Then it wakes them: each gets its unit, and unless 2^20 were woken nobody is parked as a reader any more.
      LOCKED_BIT is set only if a writer has announced itself meanwhile. */
  lemma HandOverWakesReaders(s: State, c: nat, ch: Choice)
    requires Reachable(s) && Enabled(s, c, ch) && s.pcs[c].WakeReaders?
    ensures var t := Step(s, c, ch);
      && |t.pcs| == |s.pcs| && t.w.readers > |ch.woken|
      && (forall i: nat :: i < |s.pcs| && i in ch.woken ==> t.pcs[i] == WokenReader(s.pcs[i].job))
      && (|ch.woken| < MAX_WAKED_READERS ==> forall i: nat :: i < |t.pcs| ==> !t.pcs[i].ParkedReader?)
      && (t.w.locked <==> exists i: nat :: i < |t.pcs| && Announced(t.pcs[i]))
  {
    ReachableOk(s);
    var t := Step(s, c, ch);
    forall i: nat | i < |s.pcs|
      ensures i in ch.woken ==> s.pcs[i].ParkedReader? && t.pcs[i] == WokenReader(s.pcs[i].job)
      ensures |ch.woken| < MAX_WAKED_READERS ==> !t.pcs[i].ParkedReader?
    {
      WokenAreWoken(s, c, ch, i);
      if |ch.woken| < MAX_WAKED_READERS { AllAreWoken(s, c, ch); }
    }
    SumAtLeast(Units, s.pcs, c);
    Extend(s, c, ch);
    LockedIfAnnounced(t);
  }

  /** With readers inside LOCKED_BIT belongs to an announced writer. */
  lemma LockedIfAnnounced(s: State)
    requires Reachable(s) && s.w.readers > 0
    ensures s.w.locked <==> exists i: nat :: i < |s.pcs| && Announced(s.pcs[i])
  {
    ReachableOk(s);
    if s.w.locked {
      var i := LockedHasOneOwner(s);
      assert Announced(s.pcs[i]);
    } else {
      forall i: nat | i < |s.pcs|
        ensures !Announced(s.pcs[i])
      {
        SumAtLeast(Token, s.pcs, i);
      }
    }
  }

  // ---------- the assertion that a conversion can break ----------

  /** The remaining assertion of `wake_readers`, sync.rs:601, when it converts a write lock: LOCKED_BIT is
      clear.  It holds exactly when no writer has announced itself since the conversion began. */
  lemma ConversionAssert(s: State, c: nat)
    requires Reachable(s) && c < |s.pcs| && s.pcs[c].ConvertXor?
    ensures !s.w.locked <==> forall i: nat :: i < |s.pcs| ==> !Announced(s.pcs[i])
  {
    ReachableOk(s);
    SumAtLeast(Units, s.pcs, c);
    LockedIfAnnounced(s);
  }

  const WRITER := Call(_ => Write, _ => Write, EMPTY, false)
  const READER_CALL := Call(_ => Read, _ => Read, EMPTY, false)
  const GO := Plain(false, false)
  const BLOCKED := Word(EMPTY, 0, true, true, false)
  const CONVERTED := Word(EMPTY, 1, false, true, false)

  /** Client 0 holds the write lock and client 1 has announced that it waits to read. */
  lemma ReaderWaits()
    ensures Reachable(State(BLOCKED, 0, 0,
      [HoldWrite(WRITER, EMPTY, EMPTY), ParkReader(Lock(READER_CALL), BLOCKED), Idle], false, 0))
  {
    var s0 := Start(EMPTY, 3);
    assert s0.pcs == [Idle, Idle, Idle];
    assert IsRun([s0], []);
    assert Reachable([s0][0]);
    Extend(s0, 0, Begin(WRITER));
    var s1 := State(Pure(EMPTY), 0, 0, [Optimistic(WRITER), Idle, Idle], false, 0);
    assert Step(s0, 0, Begin(WRITER)) == s1;
    Extend(s1, 0, GO);
    var locked := Pure(EMPTY).(locked := true);
    var s2 := State(locked, 0, 0, [HoldWrite(WRITER, EMPTY, EMPTY), Idle, Idle], false, 0);
    assert Step(s1, 0, GO) == s2;
    Extend(s2, 1, Begin(READER_CALL));
    var s3 := s2.(pcs := [HoldWrite(WRITER, EMPTY, EMPTY), Optimistic(READER_CALL), Idle]);
    assert Step(s2, 1, Begin(READER_CALL)) == s3;
    Extend(s3, 1, GO);
    var s4 := s2.(pcs := [HoldWrite(WRITER, EMPTY, EMPTY), SlowLoad(READER_CALL), Idle]);
    assert Step(s3, 1, GO) == s4;
    Extend(s4, 1, GO);
    var s5 := s2.(pcs := [HoldWrite(WRITER, EMPTY, EMPTY), MarkReader(Lock(READER_CALL), locked), Idle]);
    assert Step(s4, 1, GO) == s5;
    Extend(s5, 1, GO);
  }

  /** The assertion of sync.rs:601 fails in a run of three clients: 0 converts its write lock while 1 waits
      to read, and 2 announces itself between the two xors of the conversion. */
  lemma ConversionAssertFails()
    ensures exists s: State :: Reachable(s) && |s.pcs| == 3 && s.pcs[0].ConvertXor? && s.w.locked
  {
    ReaderWaits();
    var waiting := ParkReader(Lock(READER_CALL), BLOCKED);
    var s0 := State(BLOCKED, 0, 0, [HoldWrite(WRITER, EMPTY, EMPTY), waiting, Idle], false, 0);
    Extend(s0, 0, Downgrade);
    var s1 := s0.(pcs := [Convert(Derived, EMPTY, EMPTY), waiting, Idle]);
    assert Step(s0, 0, Downgrade) == s1;
    Extend(s1, 0, GO);
    var converting := ConvertXor(Derived, EMPTY);
    var s2 := s0.(w := CONVERTED, pcs := [converting, waiting, Idle]);
    assert Step(s1, 0, GO) == s2;
    Extend(s2, 2, Begin(WRITER));
    var s3 := s2.(pcs := [converting, waiting, Optimistic(WRITER)]);
    assert Step(s2, 2, Begin(WRITER)) == s3;
    Extend(s3, 2, GO);
    var s4 := s2.(pcs := [converting, waiting, SlowLoad(WRITER)]);
    assert Step(s3, 2, GO) == s4;
    Extend(s4, 2, GO);
    var s5 := s2.(pcs := [converting, waiting, Announce(WRITER, CONVERTED)]);
    assert Step(s4, 2, GO) == s5;
    Extend(s5, 2, GO);
    var s6 := s2.(w := CONVERTED.(locked := true), pcs := [converting, waiting, WaitReaders(WRITER)]);
    assert Step(s5, 2, GO) == s6;
    assert Reachable(s6) && s6.pcs[0].ConvertXor?;
  }

  // ---------- bounded bypass ----------

  /** The step that `move` describes hands the lock to a parked writer. */
  ghost predicate HandsToWriter(s: State, move: Label) {
    move.c < |s.pcs| && s.pcs[move.c].HandWake? && move.ch.WakeOne?
  }

  /** The step that `move` describes clears READ_WAITER in order to wake readers. */
  ghost predicate WakesReaders(s: State, move: Label) {
    move.c < |s.pcs| && (s.pcs[move.c].ConvertXor? || s.pcs[move.c].ReadersXor?)
  }

  /** How many writers were handed the lock between the states `a` and `b` of a run. */
  ghost function HandOvers(states: seq<State>, labels: seq<Label>, a: nat, b: nat): nat
    requires a <= b <= |labels| && |states| == |labels| + 1
  {
    if a == b then 0
    else HandOvers(states, labels, a, b - 1) + B(HandsToWriter(states[b - 1], labels[b - 1]))
  }

  /** While watched and as long as no reader is woken, the history counts the hand-overs. */
  lemma WatchStep(s: State, c: nat, ch: Choice)
    requires Enabled(s, c, ch) && s.watch && !WakesReaders(s, Label(c, ch))
    ensures var t := Step(s, c, ch); t.watch && t.handoffs == s.handoffs + B(HandsToWriter(s, Label(c, ch)))
  {
  }

  /** Unless it wakes readers, the `k`-th move of a run goes on with the watch and counts its hand-over. */
  ghost predicate Counts(states: seq<State>, labels: seq<Label>, k: nat)
    requires k < |labels| && |states| == |labels| + 1
  {
    states[k].watch && !WakesReaders(states[k], labels[k]) ==>
      states[k + 1].watch && states[k + 1].handoffs == states[k].handoffs + B(HandsToWriter(states[k], labels[k]))
  }

  lemma RunCounts(states: seq<State>, labels: seq<Label>, k: nat)
    requires IsRun(states, labels) && k < |labels|
    ensures Counts(states, labels, k)
  {
    var s, l := states[k], labels[k];
    if s.watch && !WakesReaders(s, l) {
      assert l == Label(l.c, l.ch);
      WatchStep(s, l.c, l.ch);
    }
  }

  lemma {:induction false} WatchedHandOvers(states: seq<State>, labels: seq<Label>, a: nat, b: nat)
    requires |states| == |labels| + 1 && a <= b <= |labels| && states[a].watch
    requires forall k: nat :: a <= k < b ==> Counts(states, labels, k)
    requires forall k: nat {:trigger labels[k]} :: a <= k < b ==> !WakesReaders(states[k], labels[k])
    ensures states[b].watch && states[b].handoffs == states[a].handoffs + HandOvers(states, labels, a, b)
    decreases b
  {
    if a < b {
      WatchedHandOvers(states, labels, a, b - 1);
      assert Counts(states, labels, b - 1);
      assert !WakesReaders(states[b - 1], labels[b - 1]);
    }
  }

  lemma WatchBegins(states: seq<State>, labels: seq<Label>, a: nat, c: nat)
    requires IsRun(states, labels) && a < |states|
    requires c < |states[a].pcs| && states[a].pcs[c].Transfer? && states[a].pcs[c].cur.rw
    ensures states[a].watch
  {
    RunOk(states, labels, a);
    assert WatchOk(states[a], states[a].pcs[c]);
  }

  lemma FairEnd(states: seq<State>, labels: seq<Label>, b: nat)
    requires IsRun(states, labels) && b < |states| && states[b].watch
    ensures states[b].handoffs <= READ_FAIRNESS_PERIOD - 1
  {
    RunOk(states, labels, b);
    assert FairOk(states[b]);
  }

  /** Bounded bypass: from a `transfer_lock` call that sees READ_WAITER at its entry on, at most
      READ_FAIRNESS_PERIOD - 1 writers are handed the lock before readers are woken. */
  lemma BoundedBypass(states: seq<State>, labels: seq<Label>, a: nat, b: nat, c: nat)
    requires IsRun(states, labels) && a <= b <= |labels|
    requires c < |states[a].pcs| && states[a].pcs[c].Transfer? && states[a].pcs[c].cur.rw
    requires forall k: nat {:trigger labels[k]} :: a <= k < b ==> !WakesReaders(states[k], labels[k])
    ensures HandOvers(states, labels, a, b) <= READ_FAIRNESS_PERIOD - 1
  {
    WatchBegins(states, labels, a, c);
    forall k: nat | a <= k < b
      ensures Counts(states, labels, k)
    {
      RunCounts(states, labels, k);
    }
    WatchedHandOvers(states, labels, a, b);
    FairEnd(states, labels, b);
  }
}
