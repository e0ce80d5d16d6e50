/** The spinning phase locker (src/phase_locker/sync_spinning.rs): the same phased read/write lock with no
    waiter bits and nobody parked.  As in FutexProtocol, one step is one atomic operation of one client.
 */
module Spinning {
  import opened Phases
  import opened FutexProtocol
  import opened Words
  import PhasedLock

  /** `how` may be any function here: a compare-exchange succeeds only on the word that `how` judged. */
  datatype SpinCall = SpinCall(how: Phase -> LockNature, hint: Phase, trying: bool)

  datatype Maker = Called(call: SpinCall) | Copied

  datatype SpinPc =
    | Resting
    | GaveNone(call: SpinCall, p: Phase)
    | GaveUp(call: SpinCall)
    | Hinting(call: SpinCall)
    | Writing(call: SpinCall, cur: Word)       // a compare-exchange to `cur | LOCKED_BIT`
    | Reading(call: SpinCall, cur: Word)       // a compare-exchange to `cur + READER_UNITY`
    | ReadAgain(call: SpinCall)                // the reload of the inner read loop of raw_lock_slow
    | Loading(call: SpinCall)                  // the reload of raw_lock_slow
    | CopyLoading(src: nat, p: Phase)
    | Copying(src: nat, p: Phase, cur: Word)
    | Reader(maker: Maker, p: Phase)
    | Writer(call: SpinCall, init: Phase, onUnlock: Phase)
    | Leaving(p: Phase)
    | Unlocking(init: Phase, onUnlock: Phase)
    | Converting(init: Phase, onUnlock: Phase)

  datatype Spin = Spin(w: Word, pcs: seq<SpinPc>)

  datatype Pick =
    | Go(spurious: bool, spin: bool)
    | Start(call: SpinCall)
    | Copy(src: nat)
    | Intend(phase: Phase)
    | Drop
    | Convert

  /** READER_OVERF|READER_BITS all set, sync_spinning.rs:323-328. */
  predicate FieldFull(w: Word) { w.readers == FIELD - 1 }

  predicate CanWrite(w: Word) { !w.locked && w.readers == 0 }

  predicate CanRead(w: Word) { !w.locked && !FieldFull(w) }

  // ---------- local computations ----------

  /** The loop head of `raw_lock_slow`, sync_spinning.rs:635-688. */
  function SpinLoop(call: SpinCall, cur: Word): SpinPc {
    match call.how(cur.phase)
    case Write => if CanWrite(cur) then Writing(call, cur) else Loading(call)
    case Read => if CanRead(cur) then Reading(call, cur) else Loading(call)
    case NoLock => GaveNone(call, cur.phase)
  }

  /** The second attempt of `try_raw_lock`, sync_spinning.rs:534-577. */
  function TryAgain(call: SpinCall, cur: Word): SpinPc {
    match call.how(cur.phase)
    case Write => if CanWrite(cur) then Writing(call, cur) else GaveUp(call)
    case Read => if CanRead(cur) then Reading(call, cur) else GaveUp(call)
    case NoLock => GaveNone(call, cur.phase)
  }

  function Afterwards(call: SpinCall, cur: Word): SpinPc {
    if call.trying then TryAgain(call, cur) else SpinLoop(call, cur)
  }

  function ReadFailed(call: SpinCall, cur: Word, spin: bool): SpinPc {
    if call.trying then
      if call.how(cur.phase).Read? && CanRead(cur) then Reading(call, cur) else GaveUp(call)
    else if spin then ReadAgain(call) else Loading(call)
  }

  // ---------- the steps ----------

  predicate Holds(pc: SpinPc) { pc.Reader? || pc.Leaving? }

  predicate Owns(pc: SpinPc) { pc.Writer? || pc.Unlocking? || pc.Converting? }

  function CopySource(pc: SpinPc): Option<nat> {
    match pc
    case CopyLoading(src, _) => Some(src)
    case Copying(src, _, _) => Some(src)
    case _ => None
  }

  predicate BeingCopied(pcs: seq<SpinPc>, c: nat) {
    exists i: nat :: i < |pcs| && CopySource(pcs[i]) == Some(c)
  }

  ghost predicate Able(s: Spin, c: nat, k: Pick) {
    c < |s.pcs| &&
    match s.pcs[c]
    case Resting => k.Start? || (k.Copy? && k.src < |s.pcs| && s.pcs[k.src].Reader?)
    case Reader(_, _) => k.Drop? && !BeingCopied(s.pcs, c)
    case Writer(_, _, _) => k.Intend? || k.Drop? || k.Convert?
    case _ => k.Go?
  }

  function To(s: Spin, c: nat, pc: SpinPc, w: Word): Spin
    requires c < |s.pcs|
  {
    Spin(w, s.pcs[c := pc])
  }

  /** sync_spinning.rs:495-532 and 587-624. */
  function HintStep(s: Spin, c: nat, call: SpinCall, spurious: bool): Spin
    requires c < |s.pcs|
  {
    match call.how(call.hint)
    case NoLock =>
      To(s, c, if call.how(s.w.phase).NoLock? then GaveNone(call, s.w.phase) else Afterwards(call, s.w), s.w)
    case Write =>
      if s.w == Pure(call.hint) && !spurious
      then To(s, c, Writer(call, call.hint, call.hint), s.w.(locked := true))
      else To(s, c, Afterwards(call, s.w), s.w)
    case Read =>
      if s.w == Pure(call.hint) && !spurious
      then To(s, c, Reader(Called(call), call.hint), s.w.(readers := s.w.readers + 1))
      else To(s, c, Afterwards(call, s.w), s.w)
  }

  /** sync_spinning.rs:538-550 (strong) and 639-652 (weak). */
  function WritingStep(s: Spin, c: nat, call: SpinCall, cur: Word, spurious: bool): Spin
    requires c < |s.pcs|
  {
    if s.w == cur && !(spurious && !call.trying)
    then To(s, c, Writer(call, cur.phase, cur.phase), s.w.(locked := true))
    else To(s, c, if call.trying then GaveUp(call) else SpinLoop(call, s.w), s.w)
  }

  /** sync_spinning.rs:552-570 and 656-679. */
  function ReadingStep(s: Spin, c: nat, call: SpinCall, cur: Word, spurious: bool, spin: bool): Spin
    requires c < |s.pcs|
  {
    if s.w == cur && !spurious
    then To(s, c, Reader(Called(call), cur.phase), s.w.(readers := s.w.readers + 1))
    else To(s, c, ReadFailed(call, s.w, spin), s.w)
  }

  /** `Clone for ReadLock`, sync_spinning.rs:283-308; the new guard repeats the phase of its source. */
  function CopyingStep(s: Spin, c: nat, src: nat, p: Phase, cur: Word, spurious: bool): Spin
    requires c < |s.pcs|
  {
    if s.w == cur && !spurious then To(s, c, Reader(Copied, p), s.w.(readers := s.w.readers + 1))
    else To(s, c, CopyLoading(src, p), s.w)
  }

  /** `Drop for Lock`, sync_spinning.rs:245-261: None is its `unreachable!()`. */
  function UnlockingStep(s: Spin, c: nat, init: Phase, onUnlock: Phase): Option<Spin>
    requires c < |s.pcs|
  {
    if s.w == Pure(init).(locked := true) then Some(To(s, c, Resting, Pure(onUnlock))) else None
  }

  /** `into_read_lock`, sync_spinning.rs:229-243. */
  function ConvertingStep(s: Spin, c: nat, init: Phase, onUnlock: Phase): Spin
    requires c < |s.pcs|
  {
    To(s, c, Reader(Copied, onUnlock), Unlocked(s.w, init, onUnlock).(readers := XorUnity(s.w.readers)))
  }

  ghost function SpinStep(s: Spin, c: nat, k: Pick): Option<Spin>
    requires Able(s, c, k)
  {
    match s.pcs[c]
    case Resting => Some(To(s, c, if k.Start? then Hinting(k.call) else CopyLoading(k.src, s.pcs[k.src].p), s.w))
    case GaveNone(_, _) => Some(To(s, c, Resting, s.w))
    case GaveUp(_) => Some(To(s, c, Resting, s.w))
    case Hinting(call) => Some(HintStep(s, c, call, k.spurious))
    case Writing(call, cur) => Some(WritingStep(s, c, call, cur, k.spurious))
    case Reading(call, cur) => Some(ReadingStep(s, c, call, cur, k.spurious, k.spin))
    case ReadAgain(call) =>
      Some(To(s, c, if call.how(s.w.phase).Read? && CanRead(s.w) then Reading(call, s.w) else Loading(call), s.w))
    case Loading(call) => Some(To(s, c, SpinLoop(call, s.w), s.w))
    case CopyLoading(src, p) =>
      Some(To(s, c, if FieldFull(s.w) then CopyLoading(src, p) else Copying(src, p, s.w), s.w))
    case Copying(src, p, cur) => Some(CopyingStep(s, c, src, p, cur, k.spurious))
    case Reader(_, p) => Some(To(s, c, Leaving(p), s.w))
    case Writer(call, init, onUnlock) =>
      Some(To(s, c, if k.Intend? then Writer(call, init, k.phase)
                    else if k.Drop? then Unlocking(init, onUnlock) else Converting(init, onUnlock), s.w))
    case Leaving(_) => Some(To(s, c, Resting, s.w.(readers := Monus(s.w.readers, 1))))
    case Unlocking(init, onUnlock) => UnlockingStep(s, c, init, onUnlock)
    case Converting(init, onUnlock) => Some(ConvertingStep(s, c, init, onUnlock))
  }

  // ---------- the invariant: the word is a function of the abstract lock ----------

  function Abs(s: Spin): PhasedLock.Lock {
    PhasedLock.Lock(s.w.phase,
      set i: nat | i < |s.pcs| && Holds(s.pcs[i]),
      set i: nat | i < |s.pcs| && Owns(s.pcs[i]))
  }

  function WordOf(l: PhasedLock.Lock): Word { Word(l.phase, |l.readers|, l.writers != {}, false, false) }

  predicate SpinPcOk(w: Word, pc: SpinPc) {
    match pc
    case GaveNone(call, p) => call.how(p).NoLock?
    case GaveUp(call) => call.trying
    case Writing(call, cur) => call.how(cur.phase).Write? && CanWrite(cur)
    case Reading(call, cur) => call.how(cur.phase).Read? && CanRead(cur)
    case CopyLoading(_, p) => p == w.phase
    case Copying(_, p, cur) => p == w.phase && !FieldFull(cur)
    case Reader(maker, p) => p == w.phase && (maker.Called? ==> maker.call.how(p).Read?)
    case Leaving(p) => p == w.phase
    case Writer(call, init, _) => init == w.phase && call.how(init).Write?
    case Unlocking(init, _) => init == w.phase
    case Converting(init, _) => init == w.phase
    case _ => true
  }

  predicate ClientsOk(s: Spin) {
    forall i: nat {:trigger s.pcs[i]} :: i < |s.pcs| ==> SpinPcOk(s.w, s.pcs[i])
  }

  predicate CopiesOk(pcs: seq<SpinPc>) {
    forall i: nat {:trigger CopySource(pcs[i])} :: i < |pcs| && CopySource(pcs[i]).Some? ==>
      CopySource(pcs[i]).value < |pcs| && pcs[CopySource(pcs[i]).value].Reader?
  }

  predicate SpinInv(s: Spin) {
    s.w == WordOf(Abs(s)) && Fits(s.w) && PhasedLock.Exclusion(Abs(s)) && ClientsOk(s) && CopiesOk(s.pcs)
  }

  /** The abstract action of a step of `c`, read off its program points. */
  function SpinAction(before: SpinPc, after: SpinPc, c: nat): PhasedLock.Action {
    if Owns(before) then
      if Owns(after) then PhasedLock.Stutter
      else if Holds(after) then PhasedLock.Downgrade(c, before.onUnlock)
      else PhasedLock.ReleaseWrite(c, before.onUnlock)
    else if Holds(before) then
      if Holds(after) then PhasedLock.Stutter else PhasedLock.ReleaseRead(c)
    else if Holds(after) then PhasedLock.AcquireRead(c)
    else if Owns(after) then PhasedLock.AcquireWrite(c)
    else PhasedLock.Stutter
  }

  lemma AbsMove(s: Spin, c: nat, pc: SpinPc, w: Word)
    requires c < |s.pcs|
    ensures Abs(To(s, c, pc, w)).phase == w.phase
    ensures Abs(To(s, c, pc, w)).readers == if Holds(pc) then Abs(s).readers + {c} else Abs(s).readers - {c}
    ensures Abs(To(s, c, pc, w)).writers == if Owns(pc) then Abs(s).writers + {c} else Abs(s).writers - {c}
  {
    var t := To(s, c, pc, w);
    forall i: nat
      ensures i in Abs(t).readers <==> if i == c then Holds(pc) else i in Abs(s).readers
      ensures i in Abs(t).writers <==> if i == c then Owns(pc) else i in Abs(s).writers
    {
    }
  }

  /** What a step of `c` to `pc` and `w` has to bring. */
  ghost predicate Brings(s: Spin, c: nat, pc: SpinPc, w: Word)
    requires c < |s.pcs|
  {
    var a := SpinAction(s.pcs[c], pc, c);
    && PhasedLock.Allowed(Abs(s), a)
    && w == WordOf(PhasedLock.Apply(Abs(s), a)) && Fits(w)
    && SpinPcOk(w, pc)
    && (CopySource(pc).Some? ==>
          CopySource(pc).value != c && CopySource(pc).value < |s.pcs| && s.pcs[CopySource(pc).value].Reader?)
    && (s.pcs[c].Reader? ==> !BeingCopied(s.pcs, c))
    && !(Holds(s.pcs[c]) && Owns(pc))
  }

  lemma ApplyMatches(s: Spin, c: nat, pc: SpinPc, w: Word)
    requires c < |s.pcs|
    requires w.phase == PhasedLock.Apply(Abs(s), SpinAction(s.pcs[c], pc, c)).phase
    requires !(Holds(s.pcs[c]) && Owns(pc))
    ensures Abs(To(s, c, pc, w)) == PhasedLock.Apply(Abs(s), SpinAction(s.pcs[c], pc, c))
  {
    AbsMove(s, c, pc, w);
    Held(s, c);
    var l, r := Abs(s), Abs(To(s, c, pc, w));
    assert c !in l.readers ==> l.readers - {c} == l.readers;
    assert c !in l.writers ==> l.writers - {c} == l.writers;
    assert c in l.readers ==> l.readers + {c} == l.readers;
    assert c in l.writers ==> l.writers + {c} == l.writers;
  }

  lemma Held(s: Spin, c: nat)
    requires c < |s.pcs|
    ensures Holds(s.pcs[c]) <==> c in Abs(s).readers
    ensures Owns(s.pcs[c]) <==> c in Abs(s).writers
  {
  }

  /** The phase only changes when `c` alone is inside, so nobody else remembers it. */
  lemma OthersKeep(s: Spin, c: nat, pc: SpinPc, w: Word, i: nat)
    requires SpinInv(s) && c < |s.pcs| && Brings(s, c, pc, w) && i < |s.pcs| && i != c
    ensures SpinPcOk(w, s.pcs[i])
  {
    assert s.pcs[i] == s.pcs[i];
    PhasedLock.ActionKeepsExclusion(Abs(s), SpinAction(s.pcs[c], pc, c));
    Held(s, i);
    if CopySource(s.pcs[i]).Some? { Held(s, CopySource(s.pcs[i]).value); }
  }

  lemma CopiesKeep(s: Spin, c: nat, pc: SpinPc, w: Word)
    requires SpinInv(s) && c < |s.pcs| && Brings(s, c, pc, w)
    ensures CopiesOk(To(s, c, pc, w).pcs)
  {
    var t := To(s, c, pc, w);
    forall i: nat | i < |t.pcs| && CopySource(t.pcs[i]).Some?
      ensures CopySource(t.pcs[i]).value < |t.pcs| && t.pcs[CopySource(t.pcs[i]).value].Reader?
    {
      if i != c { assert CopySource(s.pcs[i]) == CopySource(t.pcs[i]); }
    }
  }

  lemma MoveOk(s: Spin, c: nat, pc: SpinPc, w: Word)
    requires SpinInv(s) && c < |s.pcs| && Brings(s, c, pc, w)
    ensures SpinInv(To(s, c, pc, w))
    ensures Abs(To(s, c, pc, w)) == PhasedLock.Apply(Abs(s), SpinAction(s.pcs[c], pc, c))
  {
    var t := To(s, c, pc, w);
    ApplyMatches(s, c, pc, w);
    PhasedLock.ActionKeepsExclusion(Abs(s), SpinAction(s.pcs[c], pc, c));
    forall i: nat | i < |t.pcs|
      ensures SpinPcOk(t.w, t.pcs[i])
    {
      if i != c { OthersKeep(s, c, pc, w, i); }
    }
    CopiesKeep(s, c, pc, w);
  }

  // ---------- every step brings what it has to ----------

  lemma Grown(x: set<nat>, c: nat)
    requires c !in x
    ensures |x + {c}| == |x| + 1
  {
  }

  lemma NotEmpty(x: set<nat>, c: nat)
    requires c in x
    ensures |x| >= 1
  {
    assert x == (x - {c}) + {c};
  }

  lemma Inside(s: Spin, c: nat)
    requires SpinInv(s) && c < |s.pcs|
    ensures Holds(s.pcs[c]) <==> c in Abs(s).readers
    ensures Owns(s.pcs[c]) <==> c in Abs(s).writers
    ensures Holds(s.pcs[c]) ==> s.w.readers >= 1 && !s.w.locked
    ensures Owns(s.pcs[c]) ==> s.w == Pure(s.w.phase).(locked := true) && Abs(s).writers == {c}
    ensures SpinPcOk(s.w, s.pcs[c])
    ensures CopySource(s.pcs[c]).Some? ==>
      CopySource(s.pcs[c]).value < |s.pcs| && s.pcs[CopySource(s.pcs[c]).value].Reader?
      && CopySource(s.pcs[c]).value in Abs(s).readers
  {
    assert s.pcs[c] == s.pcs[c];
    Held(s, c);
    if Holds(s.pcs[c]) { NotEmpty(Abs(s).readers, c); }
    if Owns(s.pcs[c]) { assert Abs(s).writers == {c}; }
  }

  lemma ReadJoins(s: Spin, c: nat, pc: SpinPc)
    requires SpinInv(s) && c < |s.pcs| && !Holds(s.pcs[c]) && !Owns(s.pcs[c]) && pc.Reader?
    requires !s.w.locked && !FieldFull(s.w) && SpinPcOk(s.w, pc)
    ensures Brings(s, c, pc, s.w.(readers := s.w.readers + 1))
  {
    Inside(s, c);
    Grown(Abs(s).readers, c);
  }

  lemma WriteJoins(s: Spin, c: nat, call: SpinCall, p: Phase)
    requires SpinInv(s) && c < |s.pcs| && !Holds(s.pcs[c]) && !Owns(s.pcs[c])
    requires CanWrite(s.w) && p == s.w.phase && call.how(p).Write?
    ensures Brings(s, c, Writer(call, p, p), s.w.(locked := true))
  {
    Inside(s, c);
    assert Abs(s).readers == {} && Abs(s).writers == {};
  }

  /** A step that touches neither the word nor what `c` holds. */
  lemma StaysOk(s: Spin, c: nat, pc: SpinPc)
    requires SpinInv(s) && c < |s.pcs| && Holds(s.pcs[c]) == Holds(pc) && Owns(s.pcs[c]) == Owns(pc)
    requires SpinPcOk(s.w, pc) && (s.pcs[c].Reader? ==> !BeingCopied(s.pcs, c))
    requires CopySource(pc).Some? ==>
      CopySource(pc).value < |s.pcs| && s.pcs[CopySource(pc).value].Reader? && !Holds(s.pcs[c])
    ensures Brings(s, c, pc, s.w)
  {
    Inside(s, c);
  }

  lemma LoopOk(w: Word, call: SpinCall, spin: bool)
    ensures SpinPcOk(w, SpinLoop(call, w)) && SpinPcOk(w, ReadFailed(call, w, spin))
    ensures call.trying ==> SpinPcOk(w, TryAgain(call, w))
    ensures SpinPcOk(w, Afterwards(call, w))
    ensures HoldsNothing(SpinLoop(call, w)) && HoldsNothing(ReadFailed(call, w, spin))
    ensures HoldsNothing(Afterwards(call, w))
  {
  }

  predicate HoldsNothing(pc: SpinPc) { !Holds(pc) && !Owns(pc) && CopySource(pc).None? }

  /** `t` keeps the invariant and is reached by the abstract action that the step of `c` shows. */
  ghost predicate Refined(s: Spin, c: nat, t: Spin) {
    && c < |s.pcs| == |t.pcs|
    && SpinInv(t)
    && PhasedLock.Allowed(Abs(s), SpinAction(s.pcs[c], t.pcs[c], c))
    && Abs(t) == PhasedLock.Apply(Abs(s), SpinAction(s.pcs[c], t.pcs[c], c))
  }

  lemma BringsRefined(s: Spin, c: nat, pc: SpinPc, w: Word)
    requires SpinInv(s) && c < |s.pcs| && Brings(s, c, pc, w)
    ensures Refined(s, c, To(s, c, pc, w))
  {
    MoveOk(s, c, pc, w);
  }

  lemma StaysRefined(s: Spin, c: nat, pc: SpinPc)
    requires SpinInv(s) && c < |s.pcs| && !Holds(s.pcs[c]) && !Owns(s.pcs[c]) && !Holds(pc) && !Owns(pc)
    requires SpinPcOk(s.w, pc)
    requires CopySource(pc).Some? ==> CopySource(pc).value < |s.pcs| && s.pcs[CopySource(pc).value].Reader?
    ensures Refined(s, c, To(s, c, pc, s.w))
  {
    StaysOk(s, c, pc);
    BringsRefined(s, c, pc, s.w);
  }

  lemma HintOk(s: Spin, c: nat, call: SpinCall, spurious: bool)
    requires SpinInv(s) && c < |s.pcs| && s.pcs[c] == Hinting(call)
    ensures Refined(s, c, HintStep(s, c, call, spurious))
  {
    LoopOk(s.w, call, false);
    if s.w == Pure(call.hint) && !spurious && call.how(call.hint).Write? {
      WriteJoins(s, c, call, call.hint);
      BringsRefined(s, c, Writer(call, call.hint, call.hint), s.w.(locked := true));
    } else if s.w == Pure(call.hint) && !spurious && call.how(call.hint).Read? {
      ReadJoins(s, c, Reader(Called(call), call.hint));
      BringsRefined(s, c, Reader(Called(call), call.hint), s.w.(readers := s.w.readers + 1));
    } else {
      StaysRefined(s, c, Afterwards(call, s.w));
      if call.how(s.w.phase).NoLock? { StaysRefined(s, c, GaveNone(call, s.w.phase)); }
    }
  }

  lemma WritingOk(s: Spin, c: nat, call: SpinCall, cur: Word, spurious: bool)
    requires SpinInv(s) && c < |s.pcs| && s.pcs[c] == Writing(call, cur)
    ensures Refined(s, c, WritingStep(s, c, call, cur, spurious))
  {
    Inside(s, c);
    LoopOk(s.w, call, false);
    if s.w == cur && !(spurious && !call.trying) {
      WriteJoins(s, c, call, cur.phase);
      BringsRefined(s, c, Writer(call, cur.phase, cur.phase), s.w.(locked := true));
    } else {
      StaysRefined(s, c, if call.trying then GaveUp(call) else SpinLoop(call, s.w));
    }
  }

  lemma ReadingOk(s: Spin, c: nat, call: SpinCall, cur: Word, spurious: bool, spin: bool)
    requires SpinInv(s) && c < |s.pcs| && s.pcs[c] == Reading(call, cur)
    ensures Refined(s, c, ReadingStep(s, c, call, cur, spurious, spin))
  {
    Inside(s, c);
    LoopOk(s.w, call, spin);
    if s.w == cur && !spurious {
      ReadJoins(s, c, Reader(Called(call), cur.phase));
      BringsRefined(s, c, Reader(Called(call), cur.phase), s.w.(readers := s.w.readers + 1));
    } else {
      StaysRefined(s, c, ReadFailed(call, s.w, spin));
    }
  }

  lemma CopyingOk(s: Spin, c: nat, src: nat, p: Phase, cur: Word, spurious: bool)
    requires SpinInv(s) && c < |s.pcs| && s.pcs[c] == Copying(src, p, cur)
    ensures Refined(s, c, CopyingStep(s, c, src, p, cur, spurious))
  {
    Inside(s, c);
    Inside(s, src);
    if s.w == cur && !spurious {
      ReadJoins(s, c, Reader(Copied, p));
      BringsRefined(s, c, Reader(Copied, p), s.w.(readers := s.w.readers + 1));
    } else {
      StaysRefined(s, c, CopyLoading(src, p));
    }
  }

  lemma LeavingOk(s: Spin, c: nat, p: Phase)
    requires SpinInv(s) && c < |s.pcs| && s.pcs[c] == Leaving(p)
    ensures Refined(s, c, To(s, c, Resting, s.w.(readers := Monus(s.w.readers, 1))))
  {
    Inside(s, c);
    Grown(Abs(s).readers - {c}, c);
    assert Abs(s).readers == (Abs(s).readers - {c}) + {c};
    BringsRefined(s, c, Resting, s.w.(readers := Monus(s.w.readers, 1)));
  }

  lemma UnlockingOk(s: Spin, c: nat, init: Phase, onUnlock: Phase)
    requires SpinInv(s) && c < |s.pcs| && s.pcs[c] == Unlocking(init, onUnlock)
    ensures UnlockingStep(s, c, init, onUnlock).Some? && Refined(s, c, UnlockingStep(s, c, init, onUnlock).value)
  {
    Inside(s, c);
    assert Abs(s).writers - {c} == {};
    BringsRefined(s, c, Resting, Pure(onUnlock));
  }

  lemma ConvertingOk(s: Spin, c: nat, init: Phase, onUnlock: Phase)
    requires SpinInv(s) && c < |s.pcs| && s.pcs[c] == Converting(init, onUnlock)
    ensures Refined(s, c, ConvertingStep(s, c, init, onUnlock))
  {
    Inside(s, c);
    XorLands(init, onUnlock);
    assert Abs(s).writers - {c} == {} && Abs(s).readers == {};
    Grown({}, c);
    var w := Unlocked(s.w, init, onUnlock).(readers := XorUnity(s.w.readers));
    assert w == Pure(onUnlock).(readers := 1);
    BringsRefined(s, c, Reader(Copied, onUnlock), w);
  }

  /** The xor of two phases takes the one to the other. */
  lemma XorLands(init: Phase, onUnlock: Phase)
    ensures Difference(init, Difference(init, onUnlock)) == onUnlock
  {
  }

  /** The guards that do not touch the word. */
  lemma GuardOk(s: Spin, c: nat, k: Pick)
    requires SpinInv(s) && Able(s, c, k) && (s.pcs[c].Reader? || s.pcs[c].Writer?)
    ensures SpinStep(s, c, k).Some? && Refined(s, c, SpinStep(s, c, k).value)
  {
    Inside(s, c);
    var pc := SpinStep(s, c, k).value.pcs[c];
    StaysOk(s, c, pc);
    BringsRefined(s, c, pc, s.w);
  }

  lemma LocalStepOk(s: Spin, c: nat, k: Pick)
    requires SpinInv(s) && Able(s, c, k)
    requires s.pcs[c].Resting? || s.pcs[c].GaveNone? || s.pcs[c].GaveUp? || s.pcs[c].ReadAgain?
      || s.pcs[c].Loading? || s.pcs[c].CopyLoading?
    ensures SpinStep(s, c, k).Some? && Refined(s, c, SpinStep(s, c, k).value)
  {
    Inside(s, c);
    if s.pcs[c].Loading? { LoopOk(s.w, s.pcs[c].call, false); }
    if s.pcs[c].Resting? && k.Copy? { Inside(s, k.src); }
    StaysRefined(s, c, SpinStep(s, c, k).value.pcs[c]);
  }

  lemma SpinStepOk(s: Spin, c: nat, k: Pick)
    requires SpinInv(s) && Able(s, c, k)
    ensures SpinStep(s, c, k).Some? && Refined(s, c, SpinStep(s, c, k).value)
  {
    match s.pcs[c]
    case Hinting(call) => HintOk(s, c, call, k.spurious);
    case Writing(call, cur) => WritingOk(s, c, call, cur, k.spurious);
    case Reading(call, cur) => ReadingOk(s, c, call, cur, k.spurious, k.spin);
    case Copying(src, p, cur) => CopyingOk(s, c, src, p, cur, k.spurious);
    case Leaving(p) => LeavingOk(s, c, p);
    case Unlocking(init, onUnlock) => UnlockingOk(s, c, init, onUnlock);
    case Converting(init, onUnlock) => ConvertingOk(s, c, init, onUnlock);
    case Reader(_, _) => GuardOk(s, c, k);
    case Writer(_, _, _) => GuardOk(s, c, k);
    case _ => LocalStepOk(s, c, k);
  }

  // ---------- runs ----------

  function SpinStart(p: Phase, n: nat): Spin { Spin(Pure(p), seq(n, _ => Resting)) }

  datatype Turn = Turn(c: nat, k: Pick)

  /** `turns` lead from a new locker to `s`, no step of them being the `unreachable!()`. */
  ghost predicate SpinsTo(p: Phase, n: nat, turns: seq<Turn>, s: Spin)
    decreases |turns|
  {
    if turns == [] then s == SpinStart(p, n)
    else
      var last := turns[|turns| - 1];
      exists r: Spin :: SpinsTo(p, n, turns[..|turns| - 1], r) && Able(r, last.c, last.k)
        && SpinStep(r, last.c, last.k) == Some(s)
  }

  ghost predicate SpinReachable(s: Spin) {
    exists p: Phase, n: nat, turns: seq<Turn> :: SpinsTo(p, n, turns, s)
  }

  lemma SpinStartOk(p: Phase, n: nat)
    ensures SpinInv(SpinStart(p, n))
  {
    var s := SpinStart(p, n);
    assert Abs(s).readers == {} && Abs(s).writers == {};
  }

  lemma {:induction false} SpinsToOk(p: Phase, n: nat, turns: seq<Turn>, s: Spin)
    requires SpinsTo(p, n, turns, s)
    ensures SpinInv(s)
    decreases |turns|
  {
    if turns == [] {
      SpinStartOk(p, n);
    } else {
      var last := turns[|turns| - 1];
      var r: Spin :| SpinsTo(p, n, turns[..|turns| - 1], r) && Able(r, last.c, last.k)
        && SpinStep(r, last.c, last.k) == Some(s);
      SpinsToOk(p, n, turns[..|turns| - 1], r);
      SpinStepOk(r, last.c, last.k);
    }
  }

  lemma SpinReachableOk(s: Spin)
    requires SpinReachable(s)
    ensures SpinInv(s)
  {
    var p: Phase, n: nat, turns: seq<Turn> :| SpinsTo(p, n, turns, s);
    SpinsToOk(p, n, turns, s);
  }

  lemma SpinExtend(s: Spin, c: nat, k: Pick)
    requires SpinReachable(s) && Able(s, c, k)
    ensures SpinStep(s, c, k).Some? && SpinReachable(SpinStep(s, c, k).value)
  {
    SpinReachableOk(s);
    SpinStepOk(s, c, k);
    var p: Phase, n: nat, turns: seq<Turn> :| SpinsTo(p, n, turns, s);
    var more := turns + [Turn(c, k)];
    var t := SpinStep(s, c, k).value;
    var last := more[|more| - 1];
    assert more[..|more| - 1] == turns;
    assert SpinsTo(p, n, more[..|more| - 1], s) && Able(s, last.c, last.k) && SpinStep(s, last.c, last.k) == Some(t);
    assert SpinsTo(p, n, more, t);
  }

  // ---------- theorems ----------

  /** Refinement: every step is a stutter or one acquisition, release or conversion of the phased lock,
      and no step ends in `unreachable!()`. */
  lemma SpinRefines(s: Spin, c: nat, k: Pick)
    requires SpinReachable(s) && Able(s, c, k)
    ensures SpinStep(s, c, k).Some?
    ensures var t := SpinStep(s, c, k).value;
      && |t.pcs| == |s.pcs|
      && PhasedLock.Allowed(Abs(s), SpinAction(s.pcs[c], t.pcs[c], c))
      && Abs(t) == PhasedLock.Apply(Abs(s), SpinAction(s.pcs[c], t.pcs[c], c))
  {
    SpinReachableOk(s);
    SpinStepOk(s, c, k);
  }

  /** The word always is what the holders make it: the field counts the live read locks and stays below
      2^21, LOCKED_BIT says that somebody holds the write lock, and those two exclude each other. */
  lemma SpinWord(s: Spin)
    requires SpinReachable(s)
    ensures s.w == WordOf(Abs(s)) && s.w.readers < FIELD
    ensures s.w.locked ==> s.w.readers == 0
    ensures PhasedLock.Exclusion(Abs(s))
  {
    SpinReachableOk(s);
    if s.w.locked {
      assert Abs(s).readers == {};
    }
  }

  /** Throughout a write tenure the word is exactly `init_phase | LOCKED_BIT`. */
  lemma WriteTenure(s: Spin, c: nat)
    requires SpinReachable(s) && c < |s.pcs| && Owns(s.pcs[c])
    ensures s.w == Pure(s.pcs[c].init).(locked := true)
  {
    SpinReachableOk(s);
    Inside(s, c);
  }

  /** With no live guard the word equals the pure phase bits. */
  lemma SpinQuiescence(s: Spin)
    requires SpinReachable(s)
    requires forall i: nat :: i < |s.pcs| ==> !Holds(s.pcs[i]) && !Owns(s.pcs[i])
    ensures s.w == Pure(s.w.phase)
  {
    SpinReachableOk(s);
    assert Abs(s).readers == {} && Abs(s).writers == {};
  }

  /** Guards and refusals agree with `how`, as in the futex locker. */
  lemma SpinNature(s: Spin, i: nat)
    requires SpinReachable(s) && i < |s.pcs|
    ensures match s.pcs[i]
      case Reader(Called(call), p) => p == s.w.phase && call.how(p).Read?
      case Reader(Copied, p) => p == s.w.phase
      case Writer(call, init, _) => init == s.w.phase && call.how(init).Write?
      case GaveNone(call, p) => call.how(p).NoLock?
      case GaveUp(call) => call.trying
      case _ => true
  {
    SpinReachableOk(s);
    assert s.pcs[i] == s.pcs[i];
  }
}
