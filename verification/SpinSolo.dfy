/** A call on the spinning locker that nobody disturbs (src/phase_locker/sync_spinning.rs:283-308 and 447-690):
    how it ends when its client alone takes steps and no compare-exchange fails spuriously. */
module SpinSolo {
  import opened Phases
  import opened FutexProtocol
  import opened Words
  import opened Spinning

  /** The call is over. */
  predicate Over(pc: SpinPc) {
    pc.Resting? || pc.GaveNone? || pc.GaveUp? || pc.Reader? || pc.Writer?
  }

  /** Client `c` goes on alone until its call is over. */
  ghost function Alone(s: Spin, c: nat, spins: seq<bool>): Spin
    decreases |spins|
  {
    if spins == [] || !Able(s, c, Go(false, spins[0])) || Over(s.pcs[c]) || SpinStep(s, c, Go(false, spins[0])).None?
    then s
    else Alone(SpinStep(s, c, Go(false, spins[0])).value, c, spins[1..])
  }

  lemma Again(s: Spin, c: nat, pc: SpinPc, w: Word, spins: seq<bool>, qc: SpinPc, v: Word)
    requires c < |s.pcs| && spins != [] && Able(To(s, c, pc, w), c, Go(false, spins[0])) && !Over(pc)
    requires SpinStep(To(s, c, pc, w), c, Go(false, spins[0])) == Some(To(To(s, c, pc, w), c, qc, v))
    ensures Alone(To(s, c, pc, w), c, spins) == Alone(To(s, c, qc, v), c, spins[1..])
  {
    assert s.pcs[c := pc][c := qc] == s.pcs[c := qc];
  }

  lemma Stops(s: Spin, c: nat, spins: seq<bool>)
    requires c < |s.pcs| && Over(s.pcs[c])
    ensures Alone(s, c, spins) == s
  {
  }

  lemma AsTo(s: Spin, c: nat)
    requires c < |s.pcs|
    ensures s == To(s, c, s.pcs[c], s.w)
  {
    assert s.pcs[c := s.pcs[c]] == s.pcs;
  }

  /** A lock of that nature can be had at once: a write lock with nobody inside, a read lock with no writer as
      long as the reader field has room. */
  predicate Grants(w: Word, nature: LockNature) {
    match nature
    case Write => !w.locked && w.readers == 0
    case Read => !w.locked && w.readers != FIELD - 1
    case NoLock => true
  }

  /** The call ends with what `how` asks for under the phase of the word `w`. */
  function Granted(s: Spin, c: nat, call: SpinCall, w: Word): Spin
    requires c < |s.pcs|
  {
    match call.how(w.phase)
    case Write => To(s, c, Writer(call, w.phase, w.phase), w.(locked := true))
    case Read => To(s, c, Reader(Called(call), w.phase), w.(readers := w.readers + 1))
    case NoLock => To(s, c, GaveNone(call, w.phase), w)
  }

  // ---------- steps ----------

  lemma SwapsWrite(s: Spin, c: nat, call: SpinCall, w: Word, spins: seq<bool>)
    requires c < |s.pcs| && spins != [] && call.how(w.phase).Write?
    ensures Alone(To(s, c, Writing(call, w), w), c, spins) == Granted(s, c, call, w)
  {
    Again(s, c, Writing(call, w), w, spins, Writer(call, w.phase, w.phase), w.(locked := true));
    Stops(Granted(s, c, call, w), c, spins[1..]);
  }

  lemma SwapsRead(s: Spin, c: nat, call: SpinCall, w: Word, spins: seq<bool>)
    requires c < |s.pcs| && spins != [] && call.how(w.phase).Read?
    ensures Alone(To(s, c, Reading(call, w), w), c, spins) == Granted(s, c, call, w)
  {
    Again(s, c, Reading(call, w), w, spins, Reader(Called(call), w.phase), w.(readers := w.readers + 1));
    Stops(Granted(s, c, call, w), c, spins[1..]);
  }

  /** Where a look at the word leads. */
  lemma Looks(s: Spin, c: nat, call: SpinCall, w: Word, spins: seq<bool>)
    requires c < |s.pcs| && spins != [] && Grants(w, call.how(w.phase))
    ensures SpinLoop(call, w) == TryAgain(call, w)
    ensures Alone(To(s, c, SpinLoop(call, w), w), c, spins) == Granted(s, c, call, w)
  {
    match call.how(w.phase)
    case Write => SwapsWrite(s, c, call, w, spins);
    case Read => SwapsRead(s, c, call, w, spins);
    case NoLock => Stops(To(s, c, GaveNone(call, w.phase), w), c, spins);
  }

  lemma FirstStep(s: Spin, c: nat, call: SpinCall, w: Word, spins: seq<bool>)
    requires c < |s.pcs| && spins != []
    ensures var hits := w == Pure(call.hint) && !call.how(call.hint).NoLock?;
      Alone(To(s, c, Hinting(call), w), c, spins) ==
        if hits then Granted(s, c, call, w) else Alone(To(s, c, Afterwards(call, w), w), c, spins[1..])
  {
    if w == Pure(call.hint) && !call.how(call.hint).NoLock? {
      var t := Granted(s, c, call, w);
      Again(s, c, Hinting(call), w, spins, t.pcs[c], t.w);
      Stops(t, c, spins[1..]);
    } else {
      Again(s, c, Hinting(call), w, spins, Afterwards(call, w), w);
    }
  }

  /** A call that cannot be granted looks at the word again and again. */
  lemma {:induction false} Waits(s: Spin, c: nat, call: SpinCall, w: Word, spins: seq<bool>)
    requires c < |s.pcs| && !Grants(w, call.how(w.phase))
    ensures Alone(To(s, c, Loading(call), w), c, spins) == To(s, c, Loading(call), w)
    decreases |spins|
  {
    if spins != [] {
      assert SpinLoop(call, w) == Loading(call);
      Again(s, c, Loading(call), w, spins, Loading(call), w);
      Waits(s, c, call, w, spins[1..]);
    }
  }

  // ---------- theorems ----------

  /** A call alone: it ends with a guard of the nature that `how` gives the phase, or is told None, if the word
      allows that nature.  If not, `try_lock` is refused and `lock` spins on. */
  lemma CallAlone(s: Spin, c: nat, call: SpinCall, spins: seq<bool>)
    requires c < |s.pcs| && s.pcs[c] == Hinting(call) && |spins| >= 2
    ensures Alone(s, c, spins) ==
      if Grants(s.w, call.how(s.w.phase)) then Granted(s, c, call, s.w)
      else To(s, c, if call.trying then GaveUp(call) else Loading(call), s.w)
  {
    AsTo(s, c);
    FirstStep(s, c, call, s.w, spins);
    if !(s.w == Pure(call.hint) && !call.how(call.hint).NoLock?) {
      if Grants(s.w, call.how(s.w.phase)) {
        Looks(s, c, call, s.w, spins[1..]);
      } else if call.trying {
        Stops(To(s, c, GaveUp(call), s.w), c, spins[1..]);
      } else {
        assert SpinLoop(call, s.w) == Loading(call);
        Waits(s, c, call, s.w, spins[1..]);
      }
    }
  }

  /** A call that has been spinning takes the lock as soon as the word allows it. */
  lemma LoadAlone(s: Spin, c: nat, call: SpinCall, spins: seq<bool>)
    requires c < |s.pcs| && s.pcs[c] == Loading(call) && |spins| >= 2
    ensures Alone(s, c, spins) ==
      if Grants(s.w, call.how(s.w.phase)) then Granted(s, c, call, s.w) else s
  {
    AsTo(s, c);
    if Grants(s.w, call.how(s.w.phase)) {
      Again(s, c, Loading(call), s.w, spins, SpinLoop(call, s.w), s.w);
      Looks(s, c, call, s.w, spins[1..]);
    } else {
      Waits(s, c, call, s.w, spins);
    }
  }

  lemma {:induction false} CopyWaits(s: Spin, c: nat, src: nat, p: Phase, w: Word, spins: seq<bool>)
    requires c < |s.pcs| && w.readers == FIELD - 1
    ensures Alone(To(s, c, CopyLoading(src, p), w), c, spins) == To(s, c, CopyLoading(src, p), w)
    decreases |spins|
  {
    if spins != [] {
      Again(s, c, CopyLoading(src, p), w, spins, CopyLoading(src, p), w);
      CopyWaits(s, c, src, p, w, spins[1..]);
    }
  }

  /** A clone alone takes its unit if the reader field has room, and otherwise spins on. */
  lemma CopyAlone(s: Spin, c: nat, src: nat, p: Phase, spins: seq<bool>)
    requires c < |s.pcs| && s.pcs[c] == CopyLoading(src, p) && |spins| >= 2
    ensures Alone(s, c, spins) ==
      if s.w.readers == FIELD - 1 then s else To(s, c, Reader(Copied, p), s.w.(readers := s.w.readers + 1))
  {
    AsTo(s, c);
    var w := s.w;
    if w.readers == FIELD - 1 {
      CopyWaits(s, c, src, p, w, spins);
    } else {
      Again(s, c, CopyLoading(src, p), w, spins, Copying(src, p, w), w);
      Again(s, c, Copying(src, p, w), w, spins[1..], Reader(Copied, p), w.(readers := w.readers + 1));
      Stops(To(s, c, Reader(Copied, p), w.(readers := w.readers + 1)), c, spins[1..][1..]);
    }
  }

  /** When a `try_lock` is refused, whatever others do: because the word it looks at does not allow the nature
      that `how` gives its phase, or it lost the word to somebody in its one strong compare-exchange. */
  lemma GaveUpWhen(s: Spin, c: nat, k: Pick, t: Spin)
    requires Able(s, c, k) && SpinStep(s, c, k) == Some(t) && t.pcs[c].GaveUp?
    ensures match s.pcs[c]
      case Hinting(call) => call.trying && !Grants(s.w, call.how(s.w.phase))
      case Reading(call, _) => call.trying && !(call.how(s.w.phase).Read? && Grants(s.w, Read))
      case Writing(call, cur) => call.trying && s.w != cur
      case _ => false
  {
  }
}
