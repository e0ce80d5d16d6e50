/** A call that nobody disturbs (src/phase_locker/sync.rs:493-537 and 740-1187): how it ends when its client
    alone takes steps and no compare-exchange fails spuriously.  And what a refusal and a hand-over depend on. */
module FutexSolo {
  import opened Phases
  import opened FutexProtocol
  import opened FutexInvariant
  import opened FutexPreserved
  import opened FutexTheorems
  import opened FutexRuns

  // ---------- a client alone ----------

  /** The call is over, or its thread sleeps. */
  predicate Over(pc: Pc) {
    pc.Idle? || pc.AnsweredNone? || pc.Refused? || pc.HoldRead? || pc.HoldWrite? || Parked(pc)
  }

  /** Client `c` goes on alone until its call is over; `spins` says at each step whether it is still willing to
      spin.  It also stops where the kernel has to choose whom to wake. */
  ghost function Alone(s: State, c: nat, spins: seq<bool>): State
    decreases |spins|
  {
    if spins == [] || !Enabled(s, c, Plain(false, spins[0])) || Over(s.pcs[c]) then s
    else Alone(Step(s, c, Plain(false, spins[0])), c, spins[1..])
  }

  /** `s` with client `c` at `pc`, the word `w` and `n` writers counted. */
  function Placed(s: State, c: nat, pc: Pc, w: Word, n: nat): State
    requires c < |s.pcs|
  {
    s.(pcs := s.pcs[c := pc], w := w, writerCount := n)
  }

  lemma OneStep(s: State, c: nat, spins: seq<bool>, t: State)
    requires spins != [] && Enabled(s, c, Plain(false, spins[0])) && !Over(s.pcs[c])
    requires t == Step(s, c, Plain(false, spins[0]))
    ensures Alone(s, c, spins) == Alone(t, c, spins[1..])
  {
  }

  lemma Stops(s: State, c: nat, spins: seq<bool>)
    requires c < |s.pcs| && Over(s.pcs[c])
    ensures Alone(s, c, spins) == s
  {
  }

  lemma Again(s: State, c: nat, pc: Pc, w: Word, n: nat, spins: seq<bool>, qc: Pc, v: Word, m: nat)
    requires c < |s.pcs| && spins != [] && Enabled(Placed(s, c, pc, w, n), c, Plain(false, spins[0])) && !Over(pc)
    requires Step(Placed(s, c, pc, w, n), c, Plain(false, spins[0])) == Placed(Placed(s, c, pc, w, n), c, qc, v, m)
    ensures Alone(Placed(s, c, pc, w, n), c, spins) == Alone(Placed(s, c, qc, v, m), c, spins[1..])
  {
    assert s.pcs[c := pc][c := qc] == s.pcs[c := qc];
    OneStep(Placed(s, c, pc, w, n), c, spins, Placed(s, c, qc, v, m));
  }

  // ---------- what the word allows ----------

  /** A lock of that nature can be had at once: a write lock on a word that is free, a read lock beside other
      readers or on a word that is free, as long as READER_BITS has room. */
  predicate Grants(w: Word, nature: LockNature) {
    match nature
    case Write => !w.locked && w.readers == 0 && !w.rw && !w.ww
    case Read => (w.readers != 0 || (!w.locked && !w.rw && !w.ww)) && w.readers % MAX_WAKED_READERS != MAX_WAKED_READERS - 1
    case NoLock => true
  }

  /** The call ends with what `how` asks for under the phase of the word `w`. */
  function Granted(s: State, c: nat, call: Call, w: Word, n: nat): State
    requires c < |s.pcs|
  {
    match call.how(w.phase)
    case Write => Placed(s, c, HoldWrite(call, w.phase, w.phase), w.(locked := true), n)
    case Read => Placed(s, c, HoldRead(FromCall(call), w.phase), w.(readers := w.readers + 1), n)
    case NoLock => Placed(s, c, AnsweredNone(call, w.phase), w, n)
  }

  // ---------- a call that is granted ----------

  lemma SwapsWrite(s: State, c: nat, pc: Pc, call: Call, w: Word, n: nat, spins: seq<bool>)
    requires c < |s.pcs| && spins != [] && call.how(w.phase).Write?
    requires pc == FastWrite(call, w) || pc == SlowWrite(call, w)
    ensures Alone(Placed(s, c, pc, w, n), c, spins) == Granted(s, c, call, w, n)
  {
    Again(s, c, pc, w, n, spins, HoldWrite(call, w.phase, w.phase), w.(locked := true), n);
    Stops(Granted(s, c, call, w, n), c, spins[1..]);
  }

  lemma SwapsRead(s: State, c: nat, site: Site, w: Word, n: nat, spins: seq<bool>)
    requires c < |s.pcs| && spins != []
    ensures Alone(Placed(s, c, ReadCas(site, w), w, n), c, spins)
      == Placed(s, c, Acquired(site, w.phase), w.(readers := w.readers + 1), n)
  {
    Again(s, c, ReadCas(site, w), w, n, spins, Acquired(site, w.phase), w.(readers := w.readers + 1), n);
    Stops(Placed(s, c, Acquired(site, w.phase), w.(readers := w.readers + 1), n), c, spins[1..]);
  }

  lemma SlowGranted(s: State, c: nat, call: Call, w: Word, n: nat, spins: seq<bool>)
    requires c < |s.pcs| && |spins| >= 2 && Grants(w, call.how(w.phase))
    ensures Alone(Placed(s, c, SlowLoad(call), w, n), c, spins) == Granted(s, c, call, w, n)
  {
    var qc := match call.how(w.phase)
      case Write => SlowWrite(call, w)
      case Read => ReadCas(Slow(call), w)
      case NoLock => AnsweredNone(call, w.phase);
    assert SlowLoop(call, w, spins[0]) == qc;
    Again(s, c, SlowLoad(call), w, n, spins, qc, w, n);
    match call.how(w.phase)
    case Write => SwapsWrite(s, c, qc, call, w, n, spins[1..]);
    case Read => SwapsRead(s, c, Slow(call), w, n, spins[1..]);
    case NoLock => Stops(Placed(s, c, qc, w, n), c, spins[1..]);
  }

  /** The hinted attempt succeeds, or looks at the word and tries again. */
  lemma FirstStep(s: State, c: nat, call: Call, w: Word, n: nat, spins: seq<bool>)
    requires c < |s.pcs| && spins != []
    ensures var hits := w == Pure(call.hint) && !call.how(call.hint).NoLock?;
      Alone(Placed(s, c, Optimistic(call), w, n), c, spins) ==
        if hits then Granted(s, c, call, w, n)
        else Alone(Placed(s, c, SecondAttempt(call, w), w, n), c, spins[1..])
  {
    if w == Pure(call.hint) && !call.how(call.hint).NoLock? {
      var t := Granted(s, c, call, w, n);
      Again(s, c, Optimistic(call), w, n, spins, t.pcs[c], t.w, n);
      Stops(t, c, spins[1..]);
    } else {
      Again(s, c, Optimistic(call), w, n, spins, SecondAttempt(call, w), w, n);
    }
  }

  lemma FirstGranted(s: State, c: nat, call: Call, w: Word, n: nat, spins: seq<bool>)
    requires c < |s.pcs| && |spins| >= 2 && Grants(w, call.how(w.phase))
    ensures Alone(Placed(s, c, Optimistic(call), w, n), c, spins) == Granted(s, c, call, w, n)
  {
    FirstStep(s, c, call, w, n, spins);
    if !(w == Pure(call.hint) && !call.how(call.hint).NoLock?) {
      var site := if call.trying then Try(call) else Fast(call);
      var qc := match call.how(w.phase)
        case Write => FastWrite(call, w)
        case Read => ReadCas(site, w)
        case NoLock => AnsweredNone(call, w.phase);
      assert SecondAttempt(call, w) == qc;
      match call.how(w.phase)
      case Write => SwapsWrite(s, c, qc, call, w, n, spins[1..]);
      case Read => SwapsRead(s, c, site, w, n, spins[1..]);
      case NoLock => Stops(Placed(s, c, qc, w, n), c, spins[1..]);
    }
  }

  // ---------- a call that is not ----------

  lemma TryRefused(s: State, c: nat, call: Call, w: Word, n: nat, spins: seq<bool>)
    requires c < |s.pcs| && |spins| >= 2 && call.trying && !Grants(w, call.how(w.phase))
    ensures Alone(Placed(s, c, Optimistic(call), w, n), c, spins) == Placed(s, c, Refused(call), w, n)
  {
    FirstStep(s, c, call, w, n, spins);
    assert SecondAttempt(call, w) == Refused(call);
    Stops(Placed(s, c, Refused(call), w, n), c, spins[1..]);
  }

  predicate Impatient(spins: seq<bool>) { forall k: nat :: k < |spins| ==> !spins[k] }

  /** Where a client goes to sleep, and what it leaves in the word: WRITE_WAITER, and one more writer counted, or
      READ_WAITER; or it is told that it need not wait. */
  function Asleep(s: State, c: nat, call: Call, w: Word, n: nat): State
    requires c < |s.pcs|
  {
    match call.onWait(w.phase)
    case NoLock => Placed(s, c, AnsweredNone(call, w.phase), w, n)
    case Write => Placed(s, c, ParkedWriter(call), w.(ww := true), n + 1)
    case Read => Placed(s, c, ParkedReader(Lock(call)), w.(rw := true), n)
  }

  lemma WriterSleeps(s: State, c: nat, call: Call, w: Word, n: nat, spins: seq<bool>)
    requires c < |s.pcs| && |spins| >= 2 && w.ww
    ensures Alone(Placed(s, c, CountWriter(call, w), w, n), c, spins) == Placed(s, c, ParkedWriter(call), w, n + 1)
  {
    Again(s, c, CountWriter(call, w), w, n, spins, ParkWriter(call, w), w, n + 1);
    Again(s, c, ParkWriter(call, w), w, n + 1, spins[1..], ParkedWriter(call), w, n + 1);
    Stops(Placed(s, c, ParkedWriter(call), w, n + 1), c, spins[1..][1..]);
  }

  lemma ReaderSleeps(s: State, c: nat, job: Job, w: Word, n: nat, spins: seq<bool>)
    requires c < |s.pcs| && |spins| >= 1
    ensures Alone(Placed(s, c, ParkReader(job, w), w, n), c, spins) == Placed(s, c, ParkedReader(job), w, n)
  {
    Again(s, c, ParkReader(job, w), w, n, spins, ParkedReader(job), w, n);
    Stops(Placed(s, c, ParkedReader(job), w, n), c, spins[1..]);
  }

  lemma MarksWriter(s: State, c: nat, call: Call, w: Word, n: nat, spins: seq<bool>)
    requires c < |s.pcs| && |spins| >= 3
    ensures Alone(Placed(s, c, MarkWriter(call, w), w, n), c, spins)
      == Placed(s, c, ParkedWriter(call), w.(ww := true), n + 1)
  {
    var v := w.(ww := true);
    Again(s, c, MarkWriter(call, w), w, n, spins, CountWriter(call, v), v, n);
    WriterSleeps(s, c, call, v, n, spins[1..]);
  }

  lemma MarksReader(s: State, c: nat, job: Job, w: Word, n: nat, spins: seq<bool>)
    requires c < |s.pcs| && |spins| >= 2
    ensures Alone(Placed(s, c, MarkReader(job, w), w, n), c, spins) == Placed(s, c, ParkedReader(job), w.(rw := true), n)
  {
    var v := w.(rw := true);
    Again(s, c, MarkReader(job, w), w, n, spins, ParkReader(job, v), v, n);
    ReaderSleeps(s, c, job, v, n, spins[1..]);
  }

  lemma WaitEnds(s: State, c: nat, call: Call, w: Word, n: nat, spins: seq<bool>)
    requires c < |s.pcs| && |spins| >= 3
    ensures Alone(Placed(s, c, OnWait(call, w), w, n), c, spins) == Asleep(s, c, call, w, n)
  {
    match call.onWait(w.phase)
    case NoLock => Stops(Placed(s, c, AnsweredNone(call, w.phase), w, n), c, spins);
    case Write =>
      assert w.ww ==> w.(ww := true) == w;
      if w.ww { WriterSleeps(s, c, call, w, n, spins); } else { MarksWriter(s, c, call, w, n, spins); }
    case Read =>
      assert w.rw ==> w.(rw := true) == w;
      if w.rw { ReaderSleeps(s, c, Lock(call), w, n, spins); } else { MarksReader(s, c, Lock(call), w, n, spins); }
  }

  /** A writer that finds readers inside announces itself, waits in vain and withdraws. */
  lemma Withdraws(s: State, c: nat, call: Call, w: Word, n: nat, spins: seq<bool>)
    requires c < |s.pcs| && |spins| >= 6 && Impatient(spins) && w.readers != 0 && !w.locked
    ensures Alone(Placed(s, c, Announce(call, w), w, n), c, spins) == Asleep(s, c, call, w.(ww := true), n)
  {
    var v, u := w.(locked := true), w.(ww := true);
    Again(s, c, Announce(call, w), w, n, spins, WaitReaders(call), v, n);
    Again(s, c, WaitReaders(call), v, n, spins[1..], Withdraw(call, v), v, n);
    assert v.(ww := true, locked := false) == u;
    Again(s, c, Withdraw(call, v), v, n, spins[1..][1..], OnWait(call, u), u, n);
    WaitEnds(s, c, call, u, n, spins[1..][1..][1..]);
  }

  lemma SlowWaits(s: State, c: nat, call: Call, w: Word, n: nat, spins: seq<bool>)
    requires c < |s.pcs| && |spins| >= 7 && Impatient(spins) && !Grants(w, call.how(w.phase))
    ensures var withdraws := call.how(w.phase).Write? && !w.locked && w.readers != 0;
      Alone(Placed(s, c, SlowLoad(call), w, n), c, spins)
        == Asleep(s, c, call, if withdraws then w.(ww := true) else w, n)
  {
    if call.how(w.phase).Write? && !w.locked && w.readers != 0 {
      Again(s, c, SlowLoad(call), w, n, spins, Announce(call, w), w, n);
      Withdraws(s, c, call, w, n, spins[1..]);
    } else {
      assert SlowLoop(call, w, spins[0]) == OnWait(call, w);
      Again(s, c, SlowLoad(call), w, n, spins, OnWait(call, w), w, n);
      WaitEnds(s, c, call, w, n, spins[1..]);
    }
  }

  // ---------- theorems: calls ----------

  lemma AsPlaced(s: State, c: nat)
    requires c < |s.pcs|
    ensures s == Placed(s, c, s.pcs[c], s.w, s.writerCount)
  {
    assert s.pcs[c := s.pcs[c]] == s.pcs;
  }

  /** `try_lock` alone: it ends with a guard of the nature that `how` gives the phase, or is told None, if the
      word allows that nature, and is refused otherwise. */
  lemma TryAlone(s: State, c: nat, call: Call, spins: seq<bool>)
    requires c < |s.pcs| && s.pcs[c] == Optimistic(call) && call.trying && |spins| >= 2
    ensures Alone(s, c, spins) ==
      if Grants(s.w, call.how(s.w.phase)) then Granted(s, c, call, s.w, s.writerCount)
      else Placed(s, c, Refused(call), s.w, s.writerCount)
  {
    AsPlaced(s, c);
    if Grants(s.w, call.how(s.w.phase)) { FirstGranted(s, c, call, s.w, s.writerCount, spins); }
    else { TryRefused(s, c, call, s.w, s.writerCount, spins); }
  }

  /** `lock` alone ends likewise if the word allows it, however willing to spin. */
  lemma LockAlone(s: State, c: nat, call: Call, spins: seq<bool>)
    requires c < |s.pcs| && (s.pcs[c] == Optimistic(call) || s.pcs[c] == SlowLoad(call)) && |spins| >= 2
    requires Grants(s.w, call.how(s.w.phase))
    ensures Alone(s, c, spins) == Granted(s, c, call, s.w, s.writerCount)
  {
    AsPlaced(s, c);
    if s.pcs[c].Optimistic? { FirstGranted(s, c, call, s.w, s.writerCount, spins); }
    else { SlowGranted(s, c, call, s.w, s.writerCount, spins); }
  }

  /** And otherwise, once it will not spin any longer, it goes to sleep as `on_waiting_how` says, with the waiter
      bit of its class set, or is told that it need not wait.  A writer that finds only readers inside has
      announced itself and withdrawn before, which leaves WRITE_WAITER. */
  lemma LockAloneWaits(s: State, c: nat, call: Call, spins: seq<bool>)
    requires c < |s.pcs| && |spins| >= 8 && Impatient(spins) && !Grants(s.w, call.how(s.w.phase))
    requires s.pcs[c] == SlowLoad(call) || (s.pcs[c] == Optimistic(call) && !call.trying)
    ensures var withdraws := call.how(s.w.phase).Write? && !s.w.locked && s.w.readers != 0;
      Alone(s, c, spins) == Asleep(s, c, call, if withdraws then s.w.(ww := true) else s.w, s.writerCount)
  {
    AsPlaced(s, c);
    if s.pcs[c].Optimistic? {
      FirstStep(s, c, call, s.w, s.writerCount, spins);
      assert SecondAttempt(call, s.w) == SlowLoad(call);
      SlowWaits(s, c, call, s.w, s.writerCount, spins[1..]);
    } else {
      SlowWaits(s, c, call, s.w, s.writerCount, spins);
    }
  }

  /** `ReadLock::clone` alone makes its guard if READER_BITS has room, and otherwise parks. */
  lemma CloneAlone(s: State, c: nat, src: nat, spins: seq<bool>)
    requires c < |s.pcs| && s.pcs[c] == CloneLoad(src) && |spins| >= 3 && Impatient(spins)
    ensures Alone(s, c, spins) ==
      if s.w.readers % MAX_WAKED_READERS != MAX_WAKED_READERS - 1
      then Placed(s, c, HoldRead(Derived, s.w.phase), s.w.(readers := s.w.readers + 1), s.writerCount)
      else Placed(s, c, ParkedReader(Clone(src)), s.w.(rw := true), s.writerCount)
  {
    AsPlaced(s, c);
    var w, n := s.w, s.writerCount;
    var qc := CloneLoop(src, w, spins[0]);
    Again(s, c, CloneLoad(src), w, n, spins, qc, w, n);
    if w.readers % MAX_WAKED_READERS != MAX_WAKED_READERS - 1 {
      SwapsRead(s, c, Cloning(src), w, n, spins[1..]);
    } else if w.rw {
      assert w.(rw := true) == w;
      ReaderSleeps(s, c, Clone(src), w, n, spins[1..]);
    } else {
      MarksReader(s, c, Clone(src), w, n, spins[1..]);
    }
  }

  // ---------- theorems: waking up ----------

  /** A woken reader that drops its unit and need not hand over. */
  lemma DropsUnit(s: State, c: nat, p: Phase, next: Next, w: Word, n: nat, spins: seq<bool>)
    requires c < |s.pcs| && spins != [] && w.readers > 0 && !(w.readers == 1 && !w.locked && HasWaiters(w))
    ensures Alone(Placed(s, c, DropRead(p, next), w, n), c, spins)
      == Alone(Placed(s, c, Resume(next), w.(readers := w.readers - 1), n), c, spins[1..])
  {
    Again(s, c, DropRead(p, next), w, n, spins, Resume(next), w.(readers := w.readers - 1), n);
  }

  /** What a woken reader that asks for the write lock comes to, under the word `v` it leaves. */
  function Retried(s: State, c: nat, call: Call, v: Word, n: nat): State
    requires c < |s.pcs|
  {
    if Grants(v, call.how(v.phase)) then Granted(s, c, call, v, n)
    else Asleep(s, c, call, if !v.locked && v.readers != 0 then v.(ww := true) else v, n)
  }

  lemma RetriesAlone(s: State, c: nat, p: Phase, call: Call, w: Word, n: nat, spins: seq<bool>)
    requires c < |s.pcs| && |spins| >= 8 && Impatient(spins) && call.how(w.phase).Write?
    requires w.readers > 0 && !(w.readers == 1 && !w.locked && HasWaiters(w))
    ensures Alone(Placed(s, c, DropRead(p, Retry(call)), w, n), c, spins)
      == Retried(s, c, call, w.(readers := w.readers - 1), n)
  {
    var v := w.(readers := w.readers - 1);
    DropsUnit(s, c, p, Retry(call), w, n, spins);
    if Grants(v, Write) { SlowGranted(s, c, call, v, n, spins[1..]); } else { SlowWaits(s, c, call, v, n, spins[1..]); }
  }

  /** A woken reader has a unit.  If `how` still wants to read, that is its guard.  If not, it gives the unit
      back and is told None, or asks for the write lock under the word that this leaves. */
  lemma WokenReaderAlone(s: State, c: nat, call: Call, spins: seq<bool>)
    requires c < |s.pcs| && s.pcs[c] == WokenReader(Lock(call)) && |spins| >= 9 && Impatient(spins)
    requires s.w.readers > 0 && !(s.w.readers == 1 && !s.w.locked && HasWaiters(s.w))
    ensures var v := s.w.(readers := s.w.readers - 1); var n := s.writerCount;
      Alone(s, c, spins) == match call.how(s.w.phase)
        case Read => Placed(s, c, HoldRead(FromCall(call), s.w.phase), s.w, n)
        case NoLock => Placed(s, c, AnsweredNone(call, s.w.phase), v, n)
        case Write => Retried(s, c, call, v, n)
  {
    AsPlaced(s, c);
    var w, n, v := s.w, s.writerCount, s.w.(readers := s.w.readers - 1);
    Again(s, c, WokenReader(Lock(call)), w, n, spins, ReaderAwake(Lock(call), w.phase), w, n);
    match call.how(w.phase)
    case Read => Stops(Placed(s, c, HoldRead(FromCall(call), w.phase), w, n), c, spins[1..]);
    case NoLock =>
      DropsUnit(s, c, w.phase, AnswerNone(call, w.phase), w, n, spins[1..]);
      Stops(Placed(s, c, AnsweredNone(call, w.phase), v, n), c, spins[1..][1..]);
    case Write => RetriesAlone(s, c, w.phase, call, w, n, spins[1..]);
  }

  lemma SamePhase(p: Phase)
    ensures Difference(p, Difference(p, p)) == p
  {
  }

  /** What a woken writer comes to, under the word `w` with `n` writers counted beside it. */
  function Awake(s: State, c: nat, call: Call, w: Word, n: nat): State
    requires c < |s.pcs|
  {
    match call.how(w.phase)
    case Write => Placed(s, c, HoldWrite(call, w.phase, w.phase), w, n)
    case Read => Placed(s, c, HoldRead(FromCall(call), w.phase), w.(locked := false, readers := 1), n)
    case NoLock => Placed(s, c, AnsweredNone(call, w.phase), Pure(w.phase), n)
  }

  lemma WriterWakes(s: State, c: nat, call: Call, w: Word, n: nat, spins: seq<bool>)
    requires c < |s.pcs| && |spins| >= 2 && w.locked && w.readers == 0
    requires call.how(w.phase).Read? ==> !w.rw
    requires call.how(w.phase).NoLock? ==> !w.rw && !w.ww
    ensures Alone(Placed(s, c, WokenLoad(call), w, n), c, spins) == Awake(s, c, call, w, n)
  {
    var p, qc := w.phase, WriterAwake(call, w.phase);
    Again(s, c, WokenLoad(call), w, n, spins, qc, w, n);
    match call.how(p)
    case Write => Stops(Placed(s, c, qc, w, n), c, spins[1..]);
    case Read =>
      SamePhase(p);
      Again(s, c, qc, w, n, spins[1..], HoldRead(FromCall(call), p), w.(locked := false, readers := 1), n);
      Stops(Placed(s, c, HoldRead(FromCall(call), p), w.(locked := false, readers := 1), n), c, spins[1..][1..]);
    case NoLock =>
      assert w == Pure(p).(locked := true);
      Again(s, c, qc, w, n, spins[1..], AnsweredNone(call, p), Pure(p), n);
      Stops(Placed(s, c, AnsweredNone(call, p), Pure(p), n), c, spins[1..][1..]);
  }

  lemma Remarks(s: State, c: nat, call: Call, w: Word, n: nat, spins: seq<bool>)
    requires c < |s.pcs| && |spins| >= 2
    ensures Alone(Placed(s, c, WokenWriter(call), w, n + 1), c, spins) ==
      if n > 0 then Alone(Placed(s, c, WokenLoad(call), w.(ww := true), n), c, spins[2..])
      else Alone(Placed(s, c, WokenLoad(call), w, n), c, spins[1..])
  {
    if n > 0 {
      Again(s, c, WokenWriter(call), w, n + 1, spins, RemarkWriter(call), w, n);
      Again(s, c, RemarkWriter(call), w, n, spins[1..], WokenLoad(call), w.(ww := true), n);
      assert spins[1..][1..] == spins[2..];
    } else {
      Again(s, c, WokenWriter(call), w, n + 1, spins, WokenLoad(call), w, n);
    }
  }

  /** A woken writer has the lock, after it has set WRITE_WAITER again for those it leaves behind.  It keeps it,
      turns it into a read lock, or gives it back, as `how` says; as long as no reader waits, and nobody at all
      if it gives the lock back, it does so alone. */
  lemma WokenWriterAlone(s: State, c: nat, call: Call, v: Word, spins: seq<bool>)
    requires c < |s.pcs| && s.pcs[c] == WokenWriter(call) && |spins| >= 4
    requires s.writerCount > 0 && s.w.locked && s.w.readers == 0
    requires v == if s.writerCount > 1 then s.w.(ww := true) else s.w
    requires (call.how(s.w.phase).Read? ==> !v.rw) && (call.how(s.w.phase).NoLock? ==> !v.rw && !v.ww)
    ensures Alone(s, c, spins) == Awake(s, c, call, v, s.writerCount - 1)
  {
    AsPlaced(s, c);
    var n, rest := s.writerCount - 1, if s.writerCount > 1 then spins[2..] else spins[1..];
    Remarks(s, c, call, s.w, n, spins);
    assert Alone(s, c, spins) == Alone(Placed(s, c, WokenLoad(call), v, n), c, rest);
    WriterWakes(s, c, call, v, n, rest);
  }

  // ---------- theorems: refusals among others ----------

  lemma NeverRefused(call: Call, cur: Word, spin: bool, p: Phase, next: Next, prefer: bool)
    ensures !SlowLoop(call, cur, spin).Refused? && !OnWait(call, cur).Refused? && !WriterAwake(call, p).Refused?
    ensures !Resume(next).Refused? && !HandOver(prefer, cur, next).Refused?
  {
  }

  lemma ReloadRefused(site: Site, cur: Word, spin: bool)
    ensures Reloaded(site, cur, spin).Refused? ==>
      site.Try? && !(site.call.how(cur.phase).Read? && Grants(cur, Read))
    ensures !CloneLoop(if site.Cloning? then site.src else 0, cur, spin).Refused?
  {
  }

  /** What the refusal of the client `c` rests on. */
  ghost predicate Refusable(s: State, c: nat)
    requires c < |s.pcs|
  {
    match s.pcs[c]
    case Optimistic(call) => call.trying && !Grants(s.w, call.how(s.w.phase))
    case ReadCas(Try(call), _) => !(call.how(s.w.phase).Read? && Grants(s.w, Read))
    case ReadReload(Try(call)) => !(call.how(s.w.phase).Read? && Grants(s.w, Read))
    case FastWrite(call, cur) => call.trying && s.w != cur
    case _ => false
  }

  lemma SecondRefused(call: Call, cur: Word)
    ensures SecondAttempt(call, cur).Refused? ==> call.trying && !Grants(cur, call.how(cur.phase))
  {
  }

  lemma AcquiringRefused(s: State, c: nat, ch: Choice)
    requires Enabled(s, c, ch) && Acquiring(s.pcs[c]) && Step(s, c, ch).pcs[c].Refused?
    ensures Refusable(s, c)
  {
    match s.pcs[c]
    case Optimistic(call) => SecondRefused(call, s.w);
    case ReadCas(site, _) => ReloadRefused(site, s.w, ch.spin);
    case ReadReload(site) => ReloadRefused(site, s.w, ch.spin);
    case SlowLoad(call) => NeverRefused(call, s.w, ch.spin, EMPTY, Finish, false);
    case SlowWrite(call, _) => NeverRefused(call, s.w, ch.spin, EMPTY, Finish, false);
    case Announce(call, _) => NeverRefused(call, s.w, ch.spin, EMPTY, Finish, false);
    case CloneLoad(src) => ReloadRefused(Cloning(src), s.w, ch.spin);
    case _ =>
  }

  lemma WaitingRefused(s: State, c: nat, ch: Choice)
    requires Enabled(s, c, ch) && (Waiting(s.pcs[c]) || Waking(s.pcs[c]))
    ensures !Step(s, c, ch).pcs[c].Refused?
  {
    match s.pcs[c]
    case MarkWriter(call, _) => NeverRefused(call, s.w, ch.spin, EMPTY, Finish, false);
    case MarkReader(job, _) =>
      if job.Lock? { NeverRefused(job.call, s.w, ch.spin, EMPTY, Finish, false); }
      else { ReloadRefused(Cloning(job.src), s.w, ch.spin); }
    case Withdraw(call, cur) => NeverRefused(call, cur.(ww := true, locked := false), false, EMPTY, Finish, false);
    case WokenLoad(call) => NeverRefused(call, s.w, false, s.w.phase, Finish, false);
    case _ =>
  }

  lemma HoldersRefused(s: State, c: nat, ch: Choice)
    requires Enabled(s, c, ch) && !Acquiring(s.pcs[c]) && !Waiting(s.pcs[c]) && !Waking(s.pcs[c])
    ensures !Step(s, c, ch).pcs[c].Refused?
  {
  }

  /** When a `try_lock` is refused, whatever others do: because the word it looks at does not allow the nature
      that `how` gives its phase, or it lost the word to somebody in its one strong compare-exchange. */
  lemma RefusedWhen(s: State, c: nat, ch: Choice)
    requires Enabled(s, c, ch) && Step(s, c, ch).pcs[c].Refused?
    ensures Refusable(s, c)
  {
    if Acquiring(s.pcs[c]) { AcquiringRefused(s, c, ch); }
    else if Waiting(s.pcs[c]) || Waking(s.pcs[c]) { WaitingRefused(s, c, ch); }
    else { HoldersRefused(s, c, ch); }
  }

  // ---------- theorems: whom a hand-over turns to ----------

  /** A hand-over turns to the writers if some have announced themselves and no reader has, or it is not the turn
      of the readers: that comes once in READ_FAIRNESS_PERIOD hand-overs. */
  predicate TurnsToWriters(s: State, cur: Word) { cur.ww && (!cur.rw || s.fairness % READ_FAIRNESS_PERIOD != 0) }

  lemma TransferTurns(s: State, c: nat, cur: Word, next: Next, prefer: bool)
    requires Reachable(s) && c < |s.pcs| && s.pcs[c] == Transfer(cur, next)
    requires prefer == (s.fairness % READ_FAIRNESS_PERIOD != 0)
    ensures var pc := if TurnsToWriters(s, cur) then HandXor(prefer, cur, next) else ReadersXor(false, next);
      Step(s, c, GO) == Move(s, c, pc) && Reachable(Move(s, c, pc))
  {
    ReachableOk(s);
    assert PcOk(s.w, s.pcs[c]);
    Extend(s, c, GO);
  }

  lemma XorTurns(s: State, c: nat, prefer: bool, cur: Word, next: Next)
    requires Reachable(s) && c < |s.pcs| && s.pcs[c] == HandXor(prefer, cur, next)
    ensures Step(s, c, GO) == MoveWord(s, c, HandWake(prefer, cur, next), s.w.(ww := false, locked := true))
  {
    ReachableOk(s);
    WordAsserts(s, c);
  }

  /** Where it has turned to the writers, after two steps of its client, it holds LOCKED_BIT for one of them and
      wakes one if there is one; otherwise it lets the readers in. */
  lemma HandOverTurns(s: State, c: nat, cur: Word, next: Next) returns (t: State, u: State)
    requires Reachable(s) && c < |s.pcs| && s.pcs[c] == Transfer(cur, next)
    ensures t == Step(s, c, GO) && Enabled(t, c, GO) && u == Step(t, c, GO) && c < |u.pcs|
    ensures TurnsToWriters(s, cur) ==> u.pcs[c].HandWake? && u.w == s.w.(ww := false, locked := true)
    ensures !TurnsToWriters(s, cur) ==>
      u.pcs[c] == WakeReaders(Release(next)) && !u.w.locked && !u.w.rw && u.w.ww == s.w.ww
  {
    var prefer := s.fairness % READ_FAIRNESS_PERIOD != 0;
    TransferTurns(s, c, cur, next, prefer);
    t := Step(s, c, GO);
    u := Step(t, c, GO);
    if TurnsToWriters(s, cur) { XorTurns(t, c, prefer, cur, next); } else { HandOverLetsReadersIn(t, c, GO); }
  }

  /** The waker of writers wakes one if there is one. */
  lemma WakesAWriter(s: State, c: nat, ch: Choice, i: nat)
    requires Enabled(s, c, ch) && s.pcs[c].HandWake? && i < |s.pcs| && s.pcs[i].ParkedWriter?
    ensures ch.WakeOne? && ch.target < |s.pcs| && s.pcs[ch.target].ParkedWriter?
    ensures Step(s, c, ch).pcs[ch.target] == WokenWriter(s.pcs[ch.target].call)
  {
    assert s.pcs[i].ParkedWriter?;
  }

  /** The move calls `wake_one_writer`. */
  ghost predicate TriesWriter(s: State, move: Label) { move.c < |s.pcs| && s.pcs[move.c].HandWake? }

  /** The move wakes the parked readers. */
  ghost predicate WakesParked(s: State, move: Label) { move.c < |s.pcs| && s.pcs[move.c].WakeReaders? }

  /** How often `wake_one_writer` was called between the states `a` and `b` of a run. */
  ghost function Tries(states: seq<State>, labels: seq<Label>, a: nat, b: nat): nat
    requires a <= b <= |labels| && |states| == |labels| + 1
  {
    if a == b then 0 else Tries(states, labels, a, b - 1) + B(TriesWriter(states[b - 1], labels[b - 1]))
  }

  lemma FairnessStep(s: State, c: nat, ch: Choice)
    requires Enabled(s, c, ch)
    ensures Step(s, c, ch).fairness ==
      if s.pcs[c].WakeReaders? then 1 else if s.pcs[c].HandWake? then (s.fairness + 1) % 0x1_0000 else s.fairness
  {
  }

  /** The move `k` changes the fairness counter as it should. */
  ghost predicate Ticks(states: seq<State>, labels: seq<Label>, k: nat)
    requires k < |labels| && |states| == |labels| + 1
  {
    states[k + 1].fairness ==
      if WakesParked(states[k], labels[k]) then 1
      else if TriesWriter(states[k], labels[k]) then (states[k].fairness + 1) % 0x1_0000 else states[k].fairness
  }

  lemma RunTicks(states: seq<State>, labels: seq<Label>, k: nat)
    requires IsRun(states, labels) && k < |labels|
    ensures Ticks(states, labels, k)
  {
    assert labels[k] == labels[k];
    FairnessStep(states[k], labels[k].c, labels[k].ch);
  }

  lemma OneMore(f: nat, n: nat)
    requires f % READ_FAIRNESS_PERIOD == n % READ_FAIRNESS_PERIOD
    ensures (f + 1) % 0x1_0000 % READ_FAIRNESS_PERIOD == (n + 1) % READ_FAIRNESS_PERIOD
  {
    var g := (f + 1) % 0x1_0000;
    assert f + 1 == READ_FAIRNESS_PERIOD * (2048 * ((f + 1) / 0x1_0000)) + g;
  }

  lemma {:induction false} CountsTries(states: seq<State>, labels: seq<Label>, a: nat, b: nat)
    requires |states| == |labels| + 1 && a <= b <= |labels| && states[a].fairness == 1
    requires forall k: nat :: a <= k < b ==> Ticks(states, labels, k)
    requires forall k: nat {:trigger labels[k]} :: a <= k < b ==> !WakesParked(states[k], labels[k])
    ensures states[b].fairness % READ_FAIRNESS_PERIOD == (Tries(states, labels, a, b) + 1) % READ_FAIRNESS_PERIOD
    decreases b
  {
    if a < b {
      CountsTries(states, labels, a, b - 1);
      assert Ticks(states, labels, b - 1) && !WakesParked(states[b - 1], labels[b - 1]);
      OneMore(states[b - 1].fairness, Tries(states, labels, a, b - 1) + 1);
    }
  }

  lemma TriesCounted(states: seq<State>, labels: seq<Label>, a: nat, b: nat) returns (n: nat)
    requires |states| == |labels| + 1 && a <= b <= |labels| && states[a].fairness == 1
    requires forall k: nat :: a <= k < b ==> Ticks(states, labels, k)
    requires forall k: nat {:trigger labels[k]} :: a <= k < b ==> !WakesParked(states[k], labels[k])
    ensures n == Tries(states, labels, a, b)
    ensures states[b].fairness % READ_FAIRNESS_PERIOD == (n + 1) % READ_FAIRNESS_PERIOD
  {
    CountsTries(states, labels, a, b);
    n := Tries(states, labels, a, b);
  }

  lemma AllTick(states: seq<State>, labels: seq<Label>, a: nat, b: nat)
    requires IsRun(states, labels) && a <= b <= |labels|
    ensures forall k: nat :: a <= k < b ==> Ticks(states, labels, k)
  {
    forall k: nat | a <= k < b
      ensures Ticks(states, labels, k)
    {
      RunTicks(states, labels, k);
    }
  }

  lemma WakeResets(states: seq<State>, labels: seq<Label>, a: nat)
    requires IsRun(states, labels) && a < |labels| && WakesParked(states[a], labels[a])
    ensures states[a + 1].fairness == 1
  {
    RunTicks(states, labels, a);
  }

  /** Whose turn it is, along every run: after readers were woken by the move `a`, it is the turn of the readers
      again when `wake_one_writer` has been called READ_FAIRNESS_PERIOD - 1 times, and then every
      READ_FAIRNESS_PERIOD times; in between a hand-over turns to the writers that have announced themselves. */
  lemma ReadersTurn(states: seq<State>, labels: seq<Label>, a: nat, b: nat) returns (n: nat)
    requires IsRun(states, labels) && a < b <= |labels| && WakesParked(states[a], labels[a])
    requires forall k: nat {:trigger labels[k]} :: a < k < b ==> !WakesParked(states[k], labels[k])
    ensures n == Tries(states, labels, a + 1, b)
    ensures states[b].fairness % READ_FAIRNESS_PERIOD == (n + 1) % READ_FAIRNESS_PERIOD
  {
    WakeResets(states, labels, a);
    AllTick(states, labels, a + 1, b);
    n := TriesCounted(states, labels, a + 1, b);
  }
}
