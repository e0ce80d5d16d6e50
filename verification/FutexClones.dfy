/** A reader that waits in `ReadLock::clone` (src/phase_locker/sync.rs:493-537).

    The guard it clones cannot be released before the clone is made, so the reader field never reaches 0, and
    it is by reaching 0 that a hand-over begins.  A clone therefore only wakes if readers are about to be
    woken when it parks; otherwise it sleeps for ever, and so does everybody else who is parked.
 */
module FutexClones {
  import opened Phases
  import opened FutexProtocol
  import opened FutexInvariant
  import opened FutexPreserved
  import opened FutexTheorems
  import opened FutexMoves
  import opened FutexRuns

  // ---------- what may still happen ----------

  /** `moves` may lead from `s` to `t`. */
  ghost predicate Leads(s: State, moves: seq<Label>, t: State)
    decreases |moves|
  {
    if moves == [] then t == s
    else
      var last := moves[|moves| - 1];
      exists r: State ::
        Leads(s, moves[..|moves| - 1], r) && Enabled(r, last.c, last.ch) && t == Step(r, last.c, last.ch)
  }

  ghost predicate CanReach(s: State, t: State) {
    exists moves: seq<Label> :: Leads(s, moves, t)
  }

  /** Client `i` is unparked in some continuation. */
  ghost predicate MayWake(s: State, i: nat) {
    exists t: State :: CanReach(s, t) && i < |t.pcs| && !Parked(t.pcs[i])
  }

  ghost predicate NobodyAtWake(s: State) { forall c: nat :: c < |s.pcs| ==> !AtWake(s.pcs[c]) }

  // ---------- nobody wakes any more ----------

  /** A guard that is being cloned keeps the reader field above 0. */
  lemma BorrowedInside(s: State, i: nat)
    requires Inv(s) && i < |s.pcs| && ParkedClone(s.pcs[i])
    ensures s.w.readers > 0
  {
    assert CloneSource(s.pcs[i]).Some?;
    SumAtLeast(Units, s.pcs, CloneSource(s.pcs[i]).value);
  }

  /** With a reader inside nobody holds the write lock, and no hand-over comes to wake anybody. */
  lemma InsideNoHandOver(s: State, c: nat)
    requires Inv(s) && c < |s.pcs| && s.w.readers > 0
    ensures !Exclusive(s.pcs[c]) && !s.pcs[c].ReadersXor? && !s.pcs[c].HandWake?
  {
    assert PcOk(s.w, s.pcs[c]);
  }

  /** With a parked clone and nobody about to wake readers, a step unparks nobody and brings no waker. */
  lemma SleepStep(s: State, c: nat, ch: Choice, i: nat)
    requires Inv(s) && Enabled(s, c, ch) && i < |s.pcs| && ParkedClone(s.pcs[i]) && NobodyAtWake(s)
    ensures NobodyAtWake(Step(s, c, ch)) && |Step(s, c, ch).pcs| == |s.pcs|
    ensures forall j: nat :: j < |s.pcs| && Parked(s.pcs[j]) ==> Step(s, c, ch).pcs[j] == s.pcs[j]
  {
    BorrowedInside(s, i);
    InsideNoHandOver(s, c);
    assert !AtWake(s.pcs[c]);
    StepQuiet(s, c, ch);
    OneMoves(s, c, ch);
  }

  /** `t` is a later state in which whoever was parked in `s` still is. */
  ghost predicate Asleep(s: State, t: State) {
    && Inv(t) && NobodyAtWake(t) && |t.pcs| == |s.pcs|
    && forall j: nat :: j < |s.pcs| && Parked(s.pcs[j]) ==> t.pcs[j] == s.pcs[j]
  }

  lemma {:induction false} SleepOn(s: State, moves: seq<Label>, t: State, i: nat)
    requires Inv(s) && Leads(s, moves, t) && i < |s.pcs| && ParkedClone(s.pcs[i]) && NobodyAtWake(s)
    ensures Asleep(s, t)
    decreases |moves|
  {
    if moves != [] {
      var last := moves[|moves| - 1];
      var r: State :|
        Leads(s, moves[..|moves| - 1], r) && Enabled(r, last.c, last.ch) && t == Step(r, last.c, last.ch);
      SleepOn(s, moves[..|moves| - 1], r, i);
      InvStep(r, last.c, last.ch);
      SleepStep(r, last.c, last.ch, i);
    }
  }

  /** Then everybody who is parked sleeps for ever. */
  lemma SleepForever(s: State, i: nat, j: nat)
    requires Reachable(s) && i < |s.pcs| && ParkedClone(s.pcs[i]) && NobodyAtWake(s)
    requires j < |s.pcs| && Parked(s.pcs[j])
    ensures !MayWake(s, j)
  {
    ReachableOk(s);
    forall t: State | CanReach(s, t)
      ensures j < |t.pcs| ==> Parked(t.pcs[j])
    {
      var moves: seq<Label> :| Leads(s, moves, t);
      SleepOn(s, moves, t, i);
    }
  }

  // ---------- somebody is about to wake readers ----------

  lemma Onward(s: State, t: State, c: nat, ch: Choice)
    requires CanReach(s, t) && Enabled(t, c, ch)
    ensures CanReach(s, Step(t, c, ch))
  {
    var moves: seq<Label> :| Leads(s, moves, t);
    var more := moves + [Label(c, ch)];
    var last := more[|more| - 1];
    assert more[..|more| - 1] == moves && last == Label(c, ch);
    assert Leads(s, more[..|more| - 1], t) && Enabled(t, last.c, last.ch);
    assert Leads(s, more, Step(t, last.c, last.ch));
  }

  lemma Here(s: State)
    ensures CanReach(s, s)
  {
    assert Leads(s, [], s);
  }

  lemma WakesNow(s: State, t: State, c: nat, i: nat)
    requires CanReach(s, t) && c < |t.pcs| && t.pcs[c].WakeReaders? && i < |t.pcs| && t.pcs[i].ParkedReader?
    ensures MayWake(s, i)
  {
    var ch := CanWake(t, c, i);
    Onward(s, t, c, ch);
    assert CanReach(s, Step(t, c, ch)) && !Parked(Step(t, c, ch).pcs[i]);
  }

  lemma WakesSoon(s: State, c: nat, i: nat)
    requires c < |s.pcs| && AtWake(s.pcs[c]) && i < |s.pcs| && s.pcs[i].ParkedReader?
    ensures MayWake(s, i)
  {
    Here(s);
    if s.pcs[c].ConvertXor? {
      Onward(s, s, c, GO);
      WakesNow(s, Step(s, c, GO), c, i);
    } else {
      WakesNow(s, s, c, i);
    }
  }

  /** The exact condition.  In every reachable state with a parked clone, a parked reader, the clone itself
      among them, is unparked in some continuation if and only if somebody is about to wake readers; and
      otherwise no parked client of either class ever is. */
  lemma CloneWakesIff(s: State, i: nat)
    requires Reachable(s) && i < |s.pcs| && ParkedClone(s.pcs[i])
    ensures forall j: nat :: j < |s.pcs| && s.pcs[j].ParkedReader? ==> (MayWake(s, j) <==> !NobodyAtWake(s))
    ensures NobodyAtWake(s) ==> forall j: nat :: j < |s.pcs| && Parked(s.pcs[j]) ==> !MayWake(s, j)
  {
    forall j: nat | j < |s.pcs| && Parked(s.pcs[j])
      ensures NobodyAtWake(s) ==> !MayWake(s, j)
      ensures s.pcs[j].ParkedReader? && !NobodyAtWake(s) ==> MayWake(s, j)
    {
      if NobodyAtWake(s) {
        SleepForever(s, i, j);
      } else if s.pcs[j].ParkedReader? {
        var c: nat :| c < |s.pcs| && AtWake(s.pcs[c]);
        WakesSoon(s, c, j);
      }
    }
  }

  // ---------- a clone that sleeps for ever on an idle lock ----------

  lemma Take(s: State, c: nat, ch: Choice, t: State)
    requires Reachable(s) && Enabled(s, c, ch) && t == Step(s, c, ch)
    ensures Reachable(t)
  {
    Extend(s, c, ch);
  }

  const LOCKED := Pure(EMPTY).(locked := true)
  const WAITED := LOCKED.(rw := true)
  const WAITING := ParkedReader(Lock(READER_CALL))
  const HOLDING := HoldRead(FromCall(READER_CALL), EMPTY)
  const CREDITED := Pure(EMPTY).(readers := 1 + MAX_WAKED_READERS)
  const SETTLING := Settle(3, Release(Finish))

  function Put(s: State, c: nat, pc: Pc): State
    requires c < |s.pcs|
  {
    s.(pcs := s.pcs[c := pc])
  }

  /** A reader comes while the writer holds the lock and announces itself. */
  lemma FirstParks(s: State, c: nat)
    requires Reachable(s) && c < |s.pcs| && s.pcs[c] == Idle && s.w == LOCKED
    ensures Reachable(Put(s, c, WAITING).(w := WAITED))
  {
    var s1 := Put(s, c, Optimistic(READER_CALL));
    Take(s, c, Begin(READER_CALL), s1);
    var s2 := Put(s, c, SlowLoad(READER_CALL));
    Take(s1, c, GO, s2);
    var s3 := Put(s, c, MarkReader(Lock(READER_CALL), LOCKED));
    Take(s2, c, GO, s3);
    var s4 := Put(s, c, ParkReader(Lock(READER_CALL), WAITED)).(w := WAITED);
    Take(s3, c, GO, s4);
    Take(s4, c, GO, Put(s, c, WAITING).(w := WAITED));
  }

  /** Another reader comes and parks. */
  lemma NextParks(s: State, c: nat)
    requires Reachable(s) && c < |s.pcs| && s.pcs[c] == Idle && s.w == WAITED
    ensures Reachable(Put(s, c, WAITING))
  {
    var s1 := Put(s, c, Optimistic(READER_CALL));
    Take(s, c, Begin(READER_CALL), s1);
    var s2 := Put(s, c, SlowLoad(READER_CALL));
    Take(s1, c, GO, s2);
    var s3 := Put(s, c, ParkReader(Lock(READER_CALL), WAITED));
    Take(s2, c, GO, s3);
    Take(s3, c, GO, Put(s, c, WAITING));
  }

  /** Client 0 holds the write lock and three readers are parked. */
  lemma ThreeWait()
    ensures Reachable(State(WAITED, 0, 0, [HoldWrite(WRITER, EMPTY, EMPTY), WAITING, WAITING, WAITING, Idle], false, 0))
  {
    var s0 := Start(EMPTY, 5);
    assert s0.pcs == [Idle, Idle, Idle, Idle, Idle];
    assert IsRun([s0], []);
    assert Reachable([s0][0]);
    var s1 := Put(s0, 0, Optimistic(WRITER));
    Take(s0, 0, Begin(WRITER), s1);
    var held := State(LOCKED, 0, 0, [HoldWrite(WRITER, EMPTY, EMPTY), Idle, Idle, Idle, Idle], false, 0);
    Take(s1, 0, GO, held);
    FirstParks(held, 1);
    var one := State(WAITED, 0, 0, [HoldWrite(WRITER, EMPTY, EMPTY), WAITING, Idle, Idle, Idle], false, 0);
    assert Put(held, 1, WAITING).(w := WAITED) == one;
    NextParks(one, 2);
    var two := State(WAITED, 0, 0, [HoldWrite(WRITER, EMPTY, EMPTY), WAITING, WAITING, Idle, Idle], false, 0);
    assert Put(one, 2, WAITING) == two;
    NextParks(two, 3);
    assert Put(two, 3, WAITING).pcs == [HoldWrite(WRITER, EMPTY, EMPTY), WAITING, WAITING, WAITING, Idle];
  }

  const HANDED := Pure(EMPTY).(rw := true)

  /** The writer begins its release and finds that it is not alone. */
  lemma WriterReleases(s: State)
    requires Reachable(s) && |s.pcs| == 5 && s.pcs[0] == HoldWrite(WRITER, EMPTY, EMPTY) && s.w == WAITED
    ensures Reachable(Put(s, 0, DropWriteXor(EMPTY, EMPTY, Finish)))
  {
    var s1 := Put(s, 0, DropWrite(EMPTY, EMPTY, Finish));
    Take(s, 0, DropGuard, s1);
    Take(s1, 0, GO, Put(s, 0, DropWriteXor(EMPTY, EMPTY, Finish)));
  }

  /** It hands over. */
  lemma WriterTransfers(s: State)
    requires Reachable(s) && |s.pcs| == 5 && s.pcs[0] == DropWriteXor(EMPTY, EMPTY, Finish)
    requires s.w == WAITED && !s.watch
    ensures Reachable(Put(s, 0, Transfer(HANDED, Finish)).(w := HANDED, watch := true, handoffs := 0))
  {
    assert Unlocked(WAITED, EMPTY, EMPTY) == HANDED;
    Take(s, 0, GO, Put(s, 0, Transfer(HANDED, Finish)).(w := HANDED, watch := true, handoffs := 0));
  }

  /** Its hand-over comes to the waking of readers. */
  lemma HandOverComes(s: State)
    requires Reachable(s) && |s.pcs| == 5 && s.pcs[0] == Transfer(HANDED, Finish) && s.w == HANDED && s.fairness == 0
    ensures Reachable(Put(s, 0, WakeReaders(Release(Finish))).(w := CREDITED, watch := false))
  {
    var s1 := Put(s, 0, ReadersXor(false, Finish));
    Take(s, 0, GO, s1);
    Take(s1, 0, GO, Put(s, 0, WakeReaders(Release(Finish))).(w := CREDITED, watch := false));
  }

  const WOKEN := WokenReader(Lock(READER_CALL))

  lemma ComesToWake()
    ensures Reachable(State(CREDITED, 0, 0, [WakeReaders(Release(Finish)), WAITING, WAITING, WAITING, Idle], false, 0))
  {
    ThreeWait();
    var s := State(WAITED, 0, 0, [HoldWrite(WRITER, EMPTY, EMPTY), WAITING, WAITING, WAITING, Idle], false, 0);
    WriterReleases(s);
    var r := State(WAITED, 0, 0, [DropWriteXor(EMPTY, EMPTY, Finish), WAITING, WAITING, WAITING, Idle], false, 0);
    assert Put(s, 0, DropWriteXor(EMPTY, EMPTY, Finish)) == r;
    WriterTransfers(r);
    var t := State(HANDED, 0, 0, [Transfer(HANDED, Finish), WAITING, WAITING, WAITING, Idle], true, 0);
    assert Put(r, 0, Transfer(HANDED, Finish)).(w := HANDED, watch := true, handoffs := 0) == t;
    HandOverComes(t);
    assert Put(t, 0, WakeReaders(Release(Finish))).pcs == [WakeReaders(Release(Finish)), WAITING, WAITING, WAITING, Idle];
  }

  lemma AllParked(pcs: seq<Pc>)
    requires pcs == [WakeReaders(Release(Finish)), WAITING, WAITING, WAITING, Idle]
    ensures ParkedReaders(pcs) == {1, 2, 3} && |{1, 2, 3}| == 3
  {
  }

  lemma AllWoken(pcs: seq<Pc>, woken: set<nat>)
    requires pcs == [WakeReaders(Release(Finish)), WAITING, WAITING, WAITING, Idle] && woken == {1, 2, 3}
    ensures WakeAll(pcs, woken)[0 := SETTLING] == [SETTLING, WOKEN, WOKEN, WOKEN, Idle]
  {
    var all := WakeAll(pcs, woken);
    assert all[1] == WOKEN && all[2] == WOKEN && all[3] == WOKEN && all[4] == Idle;
  }

  /** It wakes the three. */
  lemma ThreeWoken()
    ensures Reachable(State(CREDITED, 0, 1, [SETTLING, WOKEN, WOKEN, WOKEN, Idle], false, 0))
  {
    ComesToWake();
    var t := State(CREDITED, 0, 0, [WakeReaders(Release(Finish)), WAITING, WAITING, WAITING, Idle], false, 0);
    AllParked(t.pcs);
    AllWoken(t.pcs, {1, 2, 3});
    Take(t, 0, WakeSet({1, 2, 3}), State(CREDITED, 0, 1, [SETTLING, WOKEN, WOKEN, WOKEN, Idle], false, 0));
  }

  lemma Wakes(s: State, c: nat)
    requires Reachable(s) && c < |s.pcs| && s.pcs[c] == WOKEN && s.w.phase == EMPTY
    ensures Reachable(Put(s, c, HOLDING))
  {
    Take(s, c, GO, Put(s, c, HOLDING));
  }

  lemma Leaves(s: State, c: nat)
    requires Reachable(s) && c < |s.pcs| && s.pcs[c] == HOLDING && !Borrowed(s.pcs, c)
    requires s.w.readers > 1 && s.w.phase == EMPTY
    ensures Reachable(Put(s, c, Idle).(w := s.w.(readers := s.w.readers - 1)))
  {
    var s1 := Put(s, c, DropRead(EMPTY, Finish));
    Take(s, c, DropGuard, s1);
    Take(s1, c, GO, Put(s, c, Idle).(w := s.w.(readers := s.w.readers - 1)));
  }

  /** Two of the three release before the waker settles: READER_BITS reads full with one guard alive. */
  lemma TwoLeave()
    ensures Reachable(State(Pure(EMPTY).(readers := MAX_WAKED_READERS - 1), 0, 1,
      [SETTLING, Idle, Idle, HOLDING, Idle], false, 0))
  {
    ThreeWoken();
    var s0 := State(CREDITED, 0, 1, [SETTLING, WOKEN, WOKEN, WOKEN, Idle], false, 0);
    Wakes(s0, 1);
    var s1 := State(CREDITED, 0, 1, [SETTLING, HOLDING, WOKEN, WOKEN, Idle], false, 0);
    assert Put(s0, 1, HOLDING) == s1;
    Wakes(s1, 2);
    var s2 := State(CREDITED, 0, 1, [SETTLING, HOLDING, HOLDING, WOKEN, Idle], false, 0);
    assert Put(s1, 2, HOLDING) == s2;
    Wakes(s2, 3);
    var s3 := State(CREDITED, 0, 1, [SETTLING, HOLDING, HOLDING, HOLDING, Idle], false, 0);
    assert Put(s2, 3, HOLDING) == s3;
    Leaves(s3, 1);
    var s4 := State(Pure(EMPTY).(readers := MAX_WAKED_READERS), 0, 1, [SETTLING, Idle, HOLDING, HOLDING, Idle], false, 0);
    assert Put(s3, 1, Idle).(w := s4.w) == s4;
    Leaves(s4, 2);
    assert Put(s4, 2, Idle).pcs == [SETTLING, Idle, Idle, HOLDING, Idle];
  }

  const FULL_WORD := Pure(EMPTY).(readers := MAX_WAKED_READERS - 1)
  const SLEEPER := ParkedReader(Clone(3))

  const FULL_MARKED := FULL_WORD.(rw := true)

  /** The third guard is cloned: the field seems full, so the clone announces a reader. */
  lemma CloneMarks(s: State)
    requires Reachable(s) && |s.pcs| == 5 && s.pcs[3] == HOLDING && s.pcs[4] == Idle && s.w == FULL_WORD
    ensures Reachable(Put(s, 4, MarkReader(Clone(3), FULL_WORD)))
  {
    var s1 := Put(s, 4, CloneLoad(3));
    Take(s, 4, BeginClone(3), s1);
    Take(s1, 4, GO, Put(s, 4, MarkReader(Clone(3), FULL_WORD)));
  }

  /** And parks. */
  lemma CloneParks(s: State)
    requires Reachable(s) && |s.pcs| == 5 && s.pcs[4] == MarkReader(Clone(3), FULL_WORD) && s.w == FULL_WORD
    ensures Reachable(Put(s, 4, SLEEPER).(w := FULL_MARKED))
  {
    var s1 := Put(s, 4, ParkReader(Clone(3), FULL_MARKED)).(w := FULL_MARKED);
    Take(s, 4, GO, s1);
    Take(s1, 4, GO, Put(s, 4, SLEEPER).(w := FULL_MARKED));
  }

  /** The waker settles and leaves. */
  lemma WakerLeaves(s: State)
    requires Reachable(s) && |s.pcs| == 5 && s.pcs[0] == SETTLING && s.w == FULL_MARKED
    ensures Reachable(Put(s, 0, Idle).(w := Pure(EMPTY).(readers := 1, rw := true)))
  {
    var s1 := Put(s, 0, DropRead(EMPTY, Finish)).(w := Pure(EMPTY).(readers := 2, rw := true));
    Take(s, 0, GO, s1);
    Take(s1, 0, GO, Put(s, 0, Idle).(w := Pure(EMPTY).(readers := 1, rw := true)));
  }

  /** A run of five clients that ends with one read guard, its clone parked, nobody else using the lock, and
      the clone never to wake. */
  lemma CloneSleepsForever() returns (s: State)
    ensures Reachable(s) && s.w == Pure(EMPTY).(readers := 1, rw := true)
    ensures s.pcs == [Idle, Idle, Idle, HOLDING, SLEEPER]
    ensures !MayWake(s, 4)
  {
    TwoLeave();
    var s0 := State(FULL_WORD, 0, 1, [SETTLING, Idle, Idle, HOLDING, Idle], false, 0);
    CloneMarks(s0);
    var marking := State(FULL_WORD, 0, 1, [SETTLING, Idle, Idle, HOLDING, MarkReader(Clone(3), FULL_WORD)], false, 0);
    assert Put(s0, 4, MarkReader(Clone(3), FULL_WORD)) == marking;
    CloneParks(marking);
    var s1 := State(FULL_MARKED, 0, 1, [SETTLING, Idle, Idle, HOLDING, SLEEPER], false, 0);
    assert Put(marking, 4, SLEEPER).(w := FULL_MARKED) == s1;
    WakerLeaves(s1);
    s := State(Pure(EMPTY).(readers := 1, rw := true), 0, 1, [Idle, Idle, Idle, HOLDING, SLEEPER], false, 0);
    assert Put(s1, 0, Idle).(w := s.w) == s;
    SleepForever(s, 4, 4);
  }
}
