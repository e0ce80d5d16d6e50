/** The phase locker for one thread (src/phase_locker/unsync.rs): a RefCell that carries a phase.

    Guards are known by identities: `readers` are the live read guards and `writers` the live write guards
    with the phase each would leave behind.  `React` says what every operation answers and does in terms
    of their numbers; the class does it in the bit operations of the source.
 */
module UnSync {
  import opened Phases
  import opened FutexProtocol
  import opened Words
  import opened LockBits
  import PhasedLock

  const MAX_GUARDS := 0x10_0000  // READER_BITS / READER_UNITY + 1

  datatype Local = Local(phase: Phase, readers: set<nat>, writers: map<nat, Phase>)

  /** The operations, for a new guard `c` or on the guard `c`; `src` is the guard that is cloned. */
  datatype Event =
    | LockNow(c: nat, how: Phase -> LockNature)
    | TryNow(c: nat, how: Phase -> LockNature)
    | CloneGuard(c: nat, src: nat)
    | PlanPhase(c: nat, to: Phase)
    | IntoRead(c: nat)
    | EndRead(c: nat)
    | EndWrite(c: nat)

  datatype Answer = GotRead | GotWrite | GotNone(p: Phase) | Busy | Panicked | Done

  predicate Unused(s: Local, c: nat) { c !in s.readers && c !in s.writers }

  /** What ownership lets a program do. */
  predicate Possible(s: Local, e: Event) {
    match e
    case LockNow(c, _) => Unused(s, c)
    case TryNow(c, _) => Unused(s, c)
    case CloneGuard(c, src) => Unused(s, c) && src in s.readers
    case PlanPhase(c, _) => c in s.writers
    case IntoRead(c) => c in s.writers
    case EndRead(c) => c in s.readers
    case EndWrite(c) => c in s.writers
  }

  /** With `n` live read guards and no write guard the test for a write lock passes. */
  predicate WriteGap(n: nat) { n % MAX_GUARDS == 0 && n / FIELD % 2 == 0 }

  /** ... and the tests for a read lock pass. */
  predicate ReadGap(n: nat) { n % MAX_GUARDS != MAX_GUARDS - 1 && n / FIELD % 2 == 0 }

  /** The answer of a lock call; `refusal` is how it says no. */
  function Verdict(s: Local, how: Phase -> LockNature, refusal: Answer): Answer {
    match how(s.phase)
    case Write => if s.writers == map[] && WriteGap(|s.readers|) then GotWrite else refusal
    case Read => if s.writers == map[] && ReadGap(|s.readers|) then GotRead else refusal
    case NoLock => GotNone(s.phase)
  }

  function Granted(s: Local, c: nat, a: Answer): Local {
    match a
    case GotRead => s.(readers := s.readers + {c})
    case GotWrite => s.(writers := s.writers[c := s.phase])
    case _ => s
  }

  /** The largest number of read guards the 32-bit cell can count. */
  const COUNT_LIMIT := 0x100_0000

  function React(s: Local, e: Event): (Answer, Local)
    requires Possible(s, e)
  {
    match e
    case LockNow(c, how) => (Verdict(s, how, Panicked), Granted(s, c, Verdict(s, how, Panicked)))
    case TryNow(c, how) => (Verdict(s, how, Busy), Granted(s, c, Verdict(s, how, Busy)))
    case CloneGuard(c, _) =>
      if |s.readers| + 1 < COUNT_LIMIT then (Done, s.(readers := s.readers + {c})) else (Panicked, s)
    case PlanPhase(c, to) => (Done, s.(writers := s.writers[c := to]))
    case IntoRead(c) => (Done, Local(s.writers[c], s.readers + {c}, s.writers - {c}))
    case EndRead(c) => (Done, s.(readers := s.readers - {c}))
    case EndWrite(c) => (Done, s.(phase := s.writers[c], writers := s.writers - {c}))
  }

  // ---------- what the answers mean ----------

  function Abs(s: Local): PhasedLock.Lock { PhasedLock.Lock(s.phase, s.readers, s.writers.Keys) }

  predicate Exclusive(s: Local) { PhasedLock.Exclusion(Abs(s)) }

  /** The abstract action of an operation that is possible and answered with `a`. */
  function ActionOf(s: Local, e: Event, a: Answer): PhasedLock.Action
    requires Possible(s, e)
  {
    match e
    case IntoRead(c) => PhasedLock.Downgrade(c, s.writers[c])
    case EndRead(c) => PhasedLock.ReleaseRead(c)
    case EndWrite(c) => PhasedLock.ReleaseWrite(c, s.writers[c])
    case CloneGuard(c, _) => if a.Done? then PhasedLock.AcquireRead(c) else PhasedLock.Stutter
    case PlanPhase(_, _) => PhasedLock.Stutter
    case LockNow(c, _) => RequestAction(c, a)
    case TryNow(c, _) => RequestAction(c, a)
  }

  /** The one way to leave the abstract lock: a write lock granted over live read guards. */
  predicate Breaks(s: Local, e: Event) {
    (e.LockNow? || e.TryNow?) && e.how(s.phase).Write?
    && s.writers == map[] && s.readers != {} && WriteGap(|s.readers|)
  }

  /** An operation is an action of the phased lock, unless it is the one that breaks exclusion, and then it
      is not: the condition is exact. */
  lemma RefinesUnlessBroken(s: Local, e: Event)
    requires Exclusive(s) && Possible(s, e)
    ensures var a := ActionOf(s, e, React(s, e).0); var t := React(s, e).1;
      Abs(t) == PhasedLock.Apply(Abs(s), a) && (PhasedLock.Allowed(Abs(s), a) <==> !Breaks(s, e))
    ensures Exclusive(React(s, e).1) <==> !Breaks(s, e)
  {
    WritersEmpty(s);
    match e
    case LockNow(c, how) => VerdictRefines(s, c, how, Panicked);
    case TryNow(c, how) => VerdictRefines(s, c, how, Busy);
    case CloneGuard(c, src) => assert src in Abs(s).readers;
    case _ => PhasedLock.ActionKeepsExclusion(Abs(s), ActionOf(s, e, React(s, e).0));
  }

  /** What a granted or refused lock request is to the abstract lock. */
  function RequestAction(c: nat, a: Answer): PhasedLock.Action {
    if a.GotRead? then PhasedLock.AcquireRead(c)
    else if a.GotWrite? then PhasedLock.AcquireWrite(c) else PhasedLock.Stutter
  }

  lemma VerdictRefines(s: Local, c: nat, how: Phase -> LockNature, refusal: Answer)
    requires Exclusive(s) && Unused(s, c) && (refusal == Panicked || refusal == Busy)
    ensures var a := Verdict(s, how, refusal); var t := Granted(s, c, a);
      var broken := how(s.phase).Write? && s.writers == map[] && s.readers != {} && WriteGap(|s.readers|);
      && Abs(t) == PhasedLock.Apply(Abs(s), RequestAction(c, a))
      && (PhasedLock.Allowed(Abs(s), RequestAction(c, a)) <==> !broken)
      && (Exclusive(t) <==> !broken)
  {
    var a := Verdict(s, how, refusal);
    var t := Granted(s, c, a);
    WritersEmpty(s);
    if a.GotWrite? {
      WriteGrant(s, c);
    } else if a.GotRead? {
      assert Abs(t) == PhasedLock.Apply(Abs(s), PhasedLock.AcquireRead(c));
    }
  }

  lemma WriteGrant(s: Local, c: nat)
    requires s.writers == map[] && Unused(s, c)
    ensures Abs(Granted(s, c, GotWrite)) == PhasedLock.Apply(Abs(s), PhasedLock.AcquireWrite(c))
    ensures Exclusive(Granted(s, c, GotWrite)) <==> s.readers == {}
    ensures Abs(s).writers == {}
  {
    assert Abs(Granted(s, c, GotWrite)).writers == {c} && c in {c};
  }

  lemma WritersEmpty(s: Local)
    ensures s.writers == map[] <==> Abs(s).writers == {}
  {
  }

  /** With fewer than 2^20 read guards the tests mean what they should. */
  lemma FewGuards(n: nat)
    requires n < MAX_GUARDS
    ensures WriteGap(n) <==> n == 0
    ensures ReadGap(n) <==> n != MAX_GUARDS - 1
  {
  }

  // ---------- runs ----------

  function Fresh(p: Phase): Local { Local(p, {}, map[]) }

  /** `es` is a sequence of operations that a program can perform from a new locker, ending in `s`. */
  ghost predicate Runs(p: Phase, es: seq<Event>, s: Local)
    decreases |es|
  {
    if es == [] then s == Fresh(p)
    else
      var last := es[|es| - 1];
      exists r: Local :: Runs(p, es[..|es| - 1], r) && Possible(r, last) && React(r, last).1 == s
  }

  /** As long as there have always been fewer than 2^20 read guards. */
  ghost predicate RunsWithFew(p: Phase, es: seq<Event>, s: Local)
    decreases |es|
  {
    && |s.readers| < MAX_GUARDS
    && if es == [] then s == Fresh(p)
       else
         var last := es[|es| - 1];
         exists r: Local :: RunsWithFew(p, es[..|es| - 1], r) && Possible(r, last) && React(r, last).1 == s
  }

  /** Then every run stays a phased read/write lock, and `lock` refuses exactly what it should. */
  lemma {:induction false} FewGuardsExclude(p: Phase, es: seq<Event>, s: Local, how: Phase -> LockNature)
    requires RunsWithFew(p, es, s)
    ensures Exclusive(s)
    ensures Verdict(s, how, Panicked) == match how(s.phase)
      case Write => if Abs(s).writers == {} && s.readers == {} then GotWrite else Panicked
      case Read => if Abs(s).writers == {} && |s.readers| != MAX_GUARDS - 1 then GotRead else Panicked
      case NoLock => GotNone(s.phase)
    decreases |es|
  {
    FewGuards(|s.readers|);
    WritersEmpty(s);
    if es != [] {
      var last := es[|es| - 1];
      var r: Local :| RunsWithFew(p, es[..|es| - 1], r) && Possible(r, last) && React(r, last).1 == s;
      FewGuardsExclude(p, es[..|es| - 1], r, how);
      FewGuards(|r.readers|);
      RefinesUnlessBroken(r, last);
    }
  }

  // ---------- what a write guard leaves ----------

  /** `ss` are the states of a program that performs `es` from a new locker. */
  ghost predicate Trail(p: Phase, ss: seq<Local>, es: seq<Event>) {
    && |ss| == |es| + 1 && ss[0] == Fresh(p)
    && forall k: nat {:trigger es[k]} :: k < |es| ==> Possible(ss[k], es[k]) && ss[k + 1] == React(ss[k], es[k]).1
  }

  /** The phase set last on the guard `c` by the operations from `a` on and before `b`, or else `p`. */
  function LastSet(es: seq<Event>, c: nat, p: Phase, a: nat, b: nat): Phase
    requires a <= b <= |es|
  {
    if a == b then p
    else match es[b - 1]
      case PlanPhase(d, to) => if d == c then to else LastSet(es, c, p, a, b - 1)
      case _ => LastSet(es, c, p, a, b - 1)
  }

  /** The operation `a` gives out the write guard `c`, and the operation `b` ends it. */
  ghost predicate Tenure(p: Phase, ss: seq<Local>, es: seq<Event>, c: nat, a: nat, b: nat) {
    && Trail(p, ss, es) && a < b < |es| && c !in ss[a].writers && c !in ss[b + 1].writers
    && forall k: nat {:trigger ss[k]} :: a < k <= b ==> c in ss[k].writers
  }

  predicate OneWriter(s: Local) {
    && (forall c, d :: c in s.writers && d in s.writers ==> c == d)
    && (forall c :: c in s.writers ==> c !in s.readers)
  }

  lemma OneWriterStep(s: Local, e: Event)
    requires OneWriter(s) && Possible(s, e)
    ensures OneWriter(React(s, e).1)
  {
  }

  lemma {:induction false} OneWriterAlways(p: Phase, ss: seq<Local>, es: seq<Event>, k: nat)
    requires Trail(p, ss, es) && k < |ss|
    ensures OneWriter(ss[k])
    decreases k
  {
    if k > 0 {
      OneWriterAlways(p, ss, es, k - 1);
      assert es[k - 1] == es[k - 1];
      OneWriterStep(ss[k - 1], es[k - 1]);
    }
  }

  /** The guard `c` under an operation that does not end it. */
  lemma GuardKept(s: Local, e: Event, c: nat)
    requires OneWriter(s) && Possible(s, e) && c in s.writers && c in React(s, e).1.writers
    ensures React(s, e).1.phase == s.phase
    ensures React(s, e).1.writers[c] == match e
      case PlanPhase(d, to) => if d == c then to else s.writers[c]
      case _ => s.writers[c]
  {
  }

  /** The guard `c` as it is given out. */
  lemma GuardGiven(s: Local, e: Event, c: nat)
    requires Possible(s, e) && c !in s.writers && c in React(s, e).1.writers
    ensures React(s, e).1.phase == s.phase == React(s, e).1.writers[c]
  {
  }

  /** The phase of the guard before the operation `k` of its tenure. */
  lemma {:induction false} Throughout(p: Phase, ss: seq<Local>, es: seq<Event>, c: nat, a: nat, b: nat, k: nat)
    requires Tenure(p, ss, es, c, a, b) && a < k <= b
    ensures c in ss[k].writers && ss[k].writers[c] == LastSet(es, c, ss[a].phase, a + 1, k)
    ensures ss[k].phase == ss[a].phase
    decreases k
  {
    var i := k - 1;
    assert es[i] == es[i] && c in ss[k].writers;
    if i == a {
      GuardGiven(ss[i], es[i], c);
    } else {
      Throughout(p, ss, es, c, a, b, i);
      OneWriterAlways(p, ss, es, i);
      GuardKept(ss[i], es[i], c);
    }
  }

  /** What a write guard leaves: the phase stays what it was while the guard lives, its end publishes the phase
      that was set on it last, or the phase it found, and a read guard is left exactly by a conversion.  This
      also holds where exclusion is lost. */
  lemma PublishesLastSet(p: Phase, ss: seq<Local>, es: seq<Event>, c: nat, a: nat, b: nat)
    requires Tenure(p, ss, es, c, a, b)
    ensures forall k: nat :: a <= k <= b ==> ss[k].phase == ss[a].phase
    ensures ss[b + 1].phase == LastSet(es, c, ss[a].phase, a + 1, b + 1)
    ensures es[b] == IntoRead(c) || es[b] == EndWrite(c)
    ensures c in ss[b + 1].readers <==> es[b] == IntoRead(c)
  {
    forall k: nat | a <= k <= b
      ensures ss[k].phase == ss[a].phase
    {
      if k > a { Throughout(p, ss, es, c, a, b, k); }
    }
    assert es[b] == es[b];
    Throughout(p, ss, es, c, a, b, b);
    OneWriterAlways(p, ss, es, b);
  }

  /** The run that reads and then clones its guard `n - 1` times. */
  function Cloning(n: nat): seq<Event>
    requires n >= 1
  {
    if n == 1 then [LockNow(0, _ => Read)] else Cloning(n - 1) + [CloneGuard(n - 1, 0)]
  }

  function Below(n: nat): (x: set<nat>)
    ensures |x| == n && forall i: nat :: i in x <==> i < n
  {
    if n == 0 then {} else Below(n - 1) + {n - 1}
  }

  lemma RunsMore(p: Phase, es: seq<Event>, r: Local, e: Event)
    requires Runs(p, es, r) && Possible(r, e)
    ensures Runs(p, es + [e], React(r, e).1)
  {
    var more, s := es + [e], React(r, e).1;
    assert more[..|more| - 1] == es;
    assert Runs(p, more[..|more| - 1], r) && Possible(r, more[|more| - 1]) && React(r, more[|more| - 1]).1 == s;
  }

  lemma FirstReader()
    ensures Runs(EMPTY, [LockNow(0, _ => Read)], Local(EMPTY, Below(1), map[]))
  {
    var e := LockNow(0, _ => Read);
    assert Runs(EMPTY, [], Fresh(EMPTY));
    RunsMore(EMPTY, [], Fresh(EMPTY), e);
    assert [] + [e] == [e];
    assert Below(1) == {0} == {} + {0};
  }

  lemma OneMoreClone(es: seq<Event>, n: nat)
    requires 1 < n <= MAX_GUARDS && Runs(EMPTY, es, Local(EMPTY, Below(n - 1), map[]))
    ensures Runs(EMPTY, es + [CloneGuard(n - 1, 0)], Local(EMPTY, Below(n), map[]))
  {
    RunsMore(EMPTY, es, Local(EMPTY, Below(n - 1), map[]), CloneGuard(n - 1, 0));
  }

  lemma {:induction false} ClonesAccumulate(n: nat)
    requires 1 <= n <= MAX_GUARDS
    ensures Runs(EMPTY, Cloning(n), Local(EMPTY, Below(n), map[]))
    decreases n
  {
    if n == 1 {
      FirstReader();
    } else {
      ClonesAccumulate(n - 1);
      OneMoreClone(Cloning(n - 1), n);
    }
  }

  /** A write guard is alive beside `n` read guards. */
  predicate Broken(s: Local, n: nat) { |s.readers| == n > 0 && s.writers != map[] && !Exclusive(s) }

  lemma GrantedOverReaders(r: Local, c: nat, how: Phase -> LockNature)
    requires r.writers == map[] && r.readers != {} && WriteGap(|r.readers|) && how(r.phase).Write? && Unused(r, c)
    ensures Broken(React(r, LockNow(c, how)).1, |r.readers|)
  {
    NoWriters(r);
    RefinesUnlessBroken(r, LockNow(c, how));
    assert c in r.writers[c := r.phase];
  }

  /** With 2^20 read guards alive, which `clone` lets happen, a write lock is granted beside them. */
  lemma CloneBreaksExclusion(n: nat) returns (es: seq<Event>, s: Local)
    requires n == MAX_GUARDS
    ensures Runs(EMPTY, es, s) && Broken(s, n)
  {
    var r := Local(EMPTY, Below(n), map[]);
    ClonesAccumulate(n);
    es, s := OverReaders(Cloning(n), r, n);
  }

  lemma OverReaders(es: seq<Event>, r: Local, n: nat) returns (more: seq<Event>, s: Local)
    requires Runs(EMPTY, es, r) && n == MAX_GUARDS == |r.readers| && n !in r.readers && r.writers == map[]
    ensures Runs(EMPTY, more, s) && Broken(s, n)
  {
    var last := LockNow(n, _ => Write);
    GrantedOverReaders(r, n, last.how);
    RunsMore(EMPTY, es, r, last);
    more, s := es + [last], React(r, last).1;
  }

  lemma NoWriters(r: Local)
    requires r.writers == map[]
    ensures Exclusive(r)
  {
    assert Abs(r).writers == {};
  }

  /** A write guard is alone. */
  lemma SoleWriter(s: Local, c: nat)
    requires Exclusive(s) && c in s.writers
    ensures s.readers == {} && s.writers != map[] && s.writers - {c} == map[]
  {
    assert c in Abs(s).writers;
    assert Abs(s).writers == {c};
  }

  lemma Converted(s: Local, c: nat)
    requires Exclusive(s) && c in s.writers
    ensures var t := React(s, IntoRead(c)).1;
      t.phase == s.writers[c] && t.readers == {c} && t.writers == map[] && Exclusive(t)
  {
    SoleWriter(s, c);
    RefinesUnlessBroken(s, IntoRead(c));
  }

  // ---------- the cell ----------

  function CellOf(p: Phase, n: nat, writing: bool): nat { Bits(p) + READER_UNITY * n + LOCKED_BIT * Bit(writing) }

  /** Where the count of read guards ends up in the fields of the word. */
  lemma CellFields(p: Phase, n: nat, writing: bool)
    requires n < COUNT_LIMIT && (writing ==> n == 0)
    ensures CellOf(p, n, writing) <= ALL_BITS && PhaseOf(CellOf(p, n, writing) % 0x100) == p
    ensures Decode(CellOf(p, n, writing)).readers == n % FIELD
    ensures Decode(CellOf(p, n, writing)).locked <==> writing || n / FIELD % 2 == 1
  {
    BitsInverse(p);
    Parts(Bits(p), n + FIELD * Bit(writing));
  }

  lemma Parts(b: nat, m: nat)
    requires b < 0x100
    ensures var v := b + READER_UNITY * m;
      v % 0x100 == b && v / 0x100 == m && v / 0x2000_0000 == m / FIELD
  {
  }

  lemma BorrowTest(v: nat)
    requires v <= ALL_BITS
    ensures Bitwise(And, v, BORROW_BITS) == 0 <==> !Decode(v).locked && Decode(v).readers % MAX_GUARDS == 0
  {
    FieldUnderMasks(Decode(v).readers);
    MaskValue(MAX_WAKED_READERS - 1, true, false, false);
    AndMask(v, MAX_WAKED_READERS - 1, true, false, false);
  }

  /** The three tests of `lock` and `try_lock`, unsync.rs:241, 249 and 280-298. */
  lemma BorrowTests(v: nat, p: Phase, n: nat, writing: bool)
    requires n < COUNT_LIMIT && (writing ==> n == 0) && v == CellOf(p, n, writing)
    ensures Bitwise(And, v, BORROW_BITS) == 0 <==> !writing && WriteGap(n)
    ensures Bitwise(And, v, LOCKED_BIT) == 0 && Bitwise(And, v, READER_BITS) != READER_BITS <==> !writing && ReadGap(n)
  {
    CellFields(p, n, writing);
    BorrowTest(v);
    ReadTest(v);
    Residues(n);
  }

  lemma ReadTest(v: nat)
    requires v <= ALL_BITS
    ensures Bitwise(And, v, LOCKED_BIT) == 0 <==> !Decode(v).locked
    ensures Bitwise(And, v, READER_BITS) == READER_BITS <==> Decode(v).readers % MAX_GUARDS == MAX_GUARDS - 1
  {
    FieldTests(v);
    FlagTests(v);
  }

  lemma Residues(n: nat)
    ensures n % FIELD % MAX_GUARDS == n % MAX_GUARDS
  {
    var q, r := n / FIELD, n % FIELD;
    assert n == MAX_GUARDS * (2 * q + r / MAX_GUARDS) + r % MAX_GUARDS;
  }

  /** `cell | LOCKED_BIT` on a cell whose bit is clear. */
  lemma SetLockedBit(p: Phase, n: nat)
    requires n < COUNT_LIMIT && WriteGap(n)
    ensures Bitwise(Or, CellOf(p, n, false), LOCKED_BIT) == CellOf(p, n, true)
  {
    var v := CellOf(p, n, false);
    CellFields(p, n, false);
    OrSetsFlags(v);
    EncodeDecode(v);
  }

  /** `p.bits() | READER_UNITY`, unsync.rs:87. */
  lemma OneGuard(p: Phase)
    ensures Bitwise(Or, Bits(p), READER_UNITY) == CellOf(p, 1, false)
  {
    Masks();
    OrPhaseMask(p, UNITY);
  }

  // ---------- lock and try_lock on the cell ----------

  /** `lock` panics, unsync.rs:278-300: by one of its three assertions, or by its `unwrap`. */
  predicate LockPanics(v: nat, how: Phase -> LockNature) {
    match how(PhaseOf(v % 0x100))
    case Write => Bitwise(And, v, BORROW_BITS) != 0
    case Read => Bitwise(And, v, LOCKED_BIT) != 0 || Bitwise(And, v, READER_BITS) == READER_BITS
      || v + READER_UNITY > ALL_BITS
    case NoLock => false
  }

  /** `try_lock` answers None, unsync.rs:239-251. */
  predicate TryIsNone(v: nat, how: Phase -> LockNature) {
    match how(PhaseOf(v % 0x100))
    case Write => Bitwise(And, v, BORROW_BITS) != 0
    case Read => Bitwise(And, v, LOCKED_BIT) != 0 || Bitwise(And, v, READER_BITS) == READER_BITS
    case NoLock => false
  }

  /** On every value of the cell `try_lock` answers None exactly when `lock` would panic: past the tests of a
      read lock the checked addition has room, so no `unwrap` panics. */
  lemma TryIffLock(v: nat, how: Phase -> LockNature)
    requires v <= ALL_BITS
    ensures TryIsNone(v, how) <==> LockPanics(v, how)
  {
    if how(PhaseOf(v % 0x100)).Read? && Bitwise(And, v, READER_BITS) != READER_BITS {
      ReadTest(v);
      FieldRoom(v);
      AddUnity(v);
    }
  }

  lemma FieldRoom(v: nat)
    requires v <= ALL_BITS && Decode(v).readers % MAX_GUARDS != MAX_GUARDS - 1
    ensures Decode(v).readers + 1 < FIELD
  {
    assert Decode(v).readers < FIELD;
  }

  class Locker {
    var cell: nat
    ghost var model: Local

    /** The cell is `phase | LOCKED_BIT` under a write guard and `phase + 0x100 * n` with `n` read guards. */
    ghost predicate Valid()
      reads this
    {
      && Exclusive(model) && |model.readers| < COUNT_LIMIT
      && cell == CellOf(model.phase, |model.readers|, model.writers != map[])
    }

    constructor (p: Phase)
      ensures Valid() && model == Fresh(p)
    {
      cell := Bits(p);
      model := Fresh(p);
    }

    /** What the tests of `lock` and `try_lock` find. */
    lemma Tested()
      requires Valid()
      ensures cell <= ALL_BITS && PhaseOf(cell % 0x100) == model.phase
      ensures Bitwise(And, cell, BORROW_BITS) == 0 <==> model.writers == map[] && WriteGap(|model.readers|)
      ensures Bitwise(And, cell, LOCKED_BIT) == 0 && Bitwise(And, cell, READER_BITS) != READER_BITS
        <==> model.writers == map[] && ReadGap(|model.readers|)
    {
      Opened();
      BorrowTests(cell, model.phase, |model.readers|, model.writers != map[]);
    }

    lemma Opened()
      requires Valid()
      ensures cell <= ALL_BITS && PhaseOf(cell % 0x100) == model.phase
      ensures model.writers != map[] ==> model.readers == {}
    {
      WritersEmpty(model);
      CellFields(model.phase, |model.readers|, model.writers != map[]);
    }

    /** What the cell becomes with one more read guard, or with a write guard. */
    lemma TakeRead(c: nat)
      requires Valid() && Unused(model, c) && model.writers == map[] && ReadGap(|model.readers|)
      ensures var t := Granted(model, c, GotRead);
        && cell + READER_UNITY == CellOf(t.phase, |t.readers|, t.writers != map[]) <= ALL_BITS
        && |t.readers| < COUNT_LIMIT
    {
      CellFields(model.phase, |model.readers| + 1, false);
    }

    lemma TakeWrite(c: nat)
      requires Valid() && Unused(model, c) && model.writers == map[] && WriteGap(|model.readers|)
      ensures var t := Granted(model, c, GotWrite);
        Bitwise(Or, cell, LOCKED_BIT) == CellOf(t.phase, |t.readers|, t.writers != map[])
    {
      SetLockedBit(model.phase, |model.readers|);
      assert c in Granted(model, c, GotWrite).writers;
    }

    method CheckedAdd(k: nat) returns (r: Option<nat>)
      ensures r == if cell + k <= ALL_BITS then Some(cell + k) else None
    {
      r := if cell + k <= ALL_BITS then Some(cell + k) else None;
    }

    /** unsync.rs:273-304; `Panicked` is one of its assertions or its `unwrap`. */
    method Lock(how: Phase -> LockNature, ghost c: nat) returns (a: Answer)
      requires Valid() && Unused(model, c)
      modifies this
      ensures (a, model) == React(old(model), LockNow(c, how)) && (a == Panicked <==> LockPanics(old(cell), how))
      ensures Valid() <==> !Breaks(old(model), LockNow(c, how))
    {
      Tested();
      RefinesUnlessBroken(model, LockNow(c, how));
      match how(PhaseOf(cell % 0x100)) {
        case Write =>
          if Bitwise(And, cell, BORROW_BITS) != 0 { return Panicked; }
          TakeWrite(c);
          cell := Bitwise(Or, cell, LOCKED_BIT);
          a := GotWrite;
        case Read =>
          if Bitwise(And, cell, LOCKED_BIT) != 0 { return Panicked; }
          if Bitwise(And, cell, READER_BITS) == READER_BITS { return Panicked; }
          TakeRead(c);
          var r := CheckedAdd(READER_UNITY);
          cell := r.value;
          a := GotRead;
        case NoLock => a := GotNone(PhaseOf(cell % 0x100));
      }
      model := Granted(model, c, a);
    }

    /** unsync.rs:234-258. */
    method TryLock(how: Phase -> LockNature, ghost c: nat) returns (a: Answer)
      requires Valid() && Unused(model, c)
      modifies this
      ensures (a, model) == React(old(model), TryNow(c, how)) && (a == Busy <==> TryIsNone(old(cell), how))
      ensures Valid() <==> !Breaks(old(model), TryNow(c, how))
    {
      Tested();
      RefinesUnlessBroken(model, TryNow(c, how));
      match how(PhaseOf(cell % 0x100)) {
        case Write =>
          if Bitwise(And, cell, BORROW_BITS) != 0 { return Busy; }
          TakeWrite(c);
          cell := Bitwise(Or, cell, LOCKED_BIT);
          a := GotWrite;
        case Read =>
          if Bitwise(And, cell, LOCKED_BIT) != 0 || Bitwise(And, cell, READER_BITS) == READER_BITS { return Busy; }
          TakeRead(c);
          var r := CheckedAdd(READER_UNITY);
          cell := r.value;
          a := GotRead;
        case NoLock => a := GotNone(PhaseOf(cell % 0x100));
      }
      model := Granted(model, c, a);
    }

    /** `Clone for UnSyncReadPhaseGuard`, unsync.rs:114-119. */
    method Clone(ghost c: nat, ghost src: nat) returns (a: Answer)
      requires Valid() && Possible(model, CloneGuard(c, src))
      modifies this
      ensures (a, model) == React(old(model), CloneGuard(c, src)) && Valid()
    {
      Opened();
      RefinesUnlessBroken(model, CloneGuard(c, src));
      BitsInverse(model.phase);
      WritersEmpty(model);
      var r := CheckedAdd(READER_UNITY);
      if r == None { return Panicked; }
      cell := r.value;
      a := Done;
      model := model.(readers := model.readers + {c});
    }

    /** A write guard becomes a read guard, unsync.rs:84-92; `onUnlock` is the phase of the guard. */
    method ToRead(onUnlock: Phase, ghost c: nat)
      requires Valid() && c in model.writers && model.writers[c] == onUnlock
      modifies this
      ensures model == React(old(model), IntoRead(c)).1 && Valid()
    {
      Converted(model, c);
      OneGuard(onUnlock);
      cell := Bitwise(Or, Bits(onUnlock), READER_UNITY);
      model := React(model, IntoRead(c)).1;
    }

    /** `Drop for UnSyncPhaseGuard`, unsync.rs:94-99. */
    method DropWriteGuard(onUnlock: Phase, ghost c: nat)
      requires Valid() && c in model.writers && model.writers[c] == onUnlock
      modifies this
      ensures model == React(old(model), EndWrite(c)).1 && Valid()
    {
      SoleWriter(model, c);
      RefinesUnlessBroken(model, EndWrite(c));
      cell := Bits(onUnlock);
      model := model.(phase := onUnlock, writers := model.writers - {c});
    }

    /** `Drop for UnSyncReadPhaseGuard`, unsync.rs:147-152: the subtraction does not overflow. */
    method DropReadGuard(ghost c: nat)
      requires Valid() && c in model.readers
      modifies this
      ensures model == React(old(model), EndRead(c)).1 && Valid()
    {
      WritersEmpty(model);
      RefinesUnlessBroken(model, EndRead(c));
      assert model.readers == (model.readers - {c}) + {c};
      assert cell >= READER_UNITY;
      cell := cell - READER_UNITY;
      model := model.(readers := model.readers - {c});
    }

    /** `get_phase_unique`, unsync.rs:159-162. */
    method GetPhaseUnique() returns (p: Option<Phase>)
      requires Valid() && model.readers == {} && model.writers == map[]
      ensures p == Some(model.phase)
    {
      Opened();
      BitsInverse(model.phase);
      p := FromBits(cell);
      assert Bits(p.value) == Bits(model.phase);
      BitsInverse(p.value);
    }
  }
}
