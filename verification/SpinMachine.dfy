/** The spinning phase locker on its one atomic word, in the bit operations of the source
    (src/phase_locker/sync_spinning.rs). */
module SpinMachine {
  import opened Phases
  import opened FutexProtocol
  import opened Words
  import opened LockBits
  import opened Spinning

  // ---------- bit tests, sync_spinning.rs:317-342 ----------

  predicate HasFullReadersBits(v: nat) { Bitwise(And, v, FIELD_BITS) == FIELD_BITS }

  predicate CanWriteBits(v: nat) { IsNotWriteLockedBits(v) && HasNoReadersBits(v) }

  predicate CanReadBits(v: nat) { IsNotWriteLockedBits(v) && !HasFullReadersBits(v) }

  lemma SpinTestsAgree(v: nat)
    requires v <= ALL_BITS
    ensures HasFullReadersBits(v) <==> FieldFull(Decode(v))
    ensures CanWriteBits(v) <==> CanWrite(Decode(v))
    ensures CanReadBits(v) <==> CanRead(Decode(v))
  {
    FieldTests(v);
    FlagTests(v);
  }

  // ---------- each operation is a step ----------

  lemma Found(s: Spin, c: nat)
    requires SpinReachable(s) && c < |s.pcs|
    ensures SpinPcOk(s.w, s.pcs[c])
    ensures Holds(s.pcs[c]) ==> s.w.readers >= 1
    ensures Owns(s.pcs[c]) ==> s.w == Pure(s.w.phase).(locked := true)
  {
    SpinReachableOk(s);
    Inside(s, c);
  }

  lemma HintRuns(s: Spin, v: nat, c: nat, call: SpinCall, spurious: bool)
    requires SpinReachable(s) && c < |s.pcs| && s.pcs[c] == Hinting(call)
    requires v <= ALL_BITS && s.w == Decode(v)
    ensures SpinReachable(HintStep(s, c, call, spurious))
    ensures Hinted(call.how(call.hint), Bits(call.hint)) <= ALL_BITS
    ensures HintStep(s, c, call, spurious).w ==
      Decode(if v == Bits(call.hint) && !spurious then Hinted(call.how(call.hint), Bits(call.hint)) else v)
  {
    SpinExtend(s, c, Go(spurious, false));
    PhaseWord(call.hint);
    HintedWord(call.hint, call.how(call.hint));
    DecodeInjective(v, Bits(call.hint));
  }

  lemma WritingRuns(s: Spin, v: nat, c: nat, call: SpinCall, cur: nat, spurious: bool)
    requires SpinReachable(s) && c < |s.pcs| && cur <= ALL_BITS && s.pcs[c] == Writing(call, Decode(cur))
    requires v <= ALL_BITS && s.w == Decode(v)
    ensures SpinReachable(WritingStep(s, c, call, Decode(cur), spurious))
    ensures Bitwise(Or, cur, LOCKED_BIT) <= ALL_BITS
    ensures WritingStep(s, c, call, Decode(cur), spurious).w ==
      Decode(if v == cur && !(spurious && !call.trying) then Bitwise(Or, cur, LOCKED_BIT) else v)
  {
    SpinExtend(s, c, Go(spurious, false));
    SetFlags(cur);
    DecodeInjective(v, cur);
  }

  lemma ReadingRuns(s: Spin, v: nat, c: nat, call: SpinCall, cur: nat, spurious: bool, spin: bool)
    requires SpinReachable(s) && c < |s.pcs| && cur <= ALL_BITS && s.pcs[c] == Reading(call, Decode(cur))
    requires v <= ALL_BITS && s.w == Decode(v)
    ensures SpinReachable(ReadingStep(s, c, call, Decode(cur), spurious, spin))
    ensures cur + READER_UNITY <= ALL_BITS
    ensures ReadingStep(s, c, call, Decode(cur), spurious, spin).w ==
      Decode(if v == cur && !spurious then cur + READER_UNITY else v)
  {
    SpinExtend(s, c, Go(spurious, spin));
    Found(s, c);
    AddUnity(cur);
    DecodeInjective(v, cur);
  }

  lemma CopyingRuns(s: Spin, v: nat, c: nat, src: nat, p: Phase, cur: nat, spurious: bool)
    requires SpinReachable(s) && c < |s.pcs| && cur <= ALL_BITS && s.pcs[c] == Copying(src, p, Decode(cur))
    requires v <= ALL_BITS && s.w == Decode(v)
    ensures SpinReachable(CopyingStep(s, c, src, p, Decode(cur), spurious))
    ensures cur + READER_UNITY <= ALL_BITS
    ensures CopyingStep(s, c, src, p, Decode(cur), spurious).w ==
      Decode(if v == cur && !spurious then cur + READER_UNITY else v)
  {
    SpinExtend(s, c, Go(spurious, false));
    Found(s, c);
    AddUnity(cur);
    DecodeInjective(v, cur);
  }

  lemma LeavingRuns(s: Spin, v: nat, c: nat, p: Phase)
    requires SpinReachable(s) && c < |s.pcs| && s.pcs[c] == Leaving(p)
    requires v <= ALL_BITS && s.w == Decode(v)
    ensures SpinReachable(To(s, c, Resting, s.w.(readers := Monus(s.w.readers, 1))))
    ensures READER_UNITY <= v && Decode(v - READER_UNITY) == s.w.(readers := Monus(s.w.readers, 1))
    ensures WrapSub(v, READER_UNITY) == v - READER_UNITY
  {
    SpinExtend(s, c, Go(false, false));
    Found(s, c);
    SubUnits(v, 1);
  }

  lemma UnlockingRuns(s: Spin, v: nat, c: nat, init: Phase, onUnlock: Phase)
    requires SpinReachable(s) && c < |s.pcs| && s.pcs[c] == Unlocking(init, onUnlock)
    requires v <= ALL_BITS && s.w == Decode(v)
    ensures v == Bitwise(Or, Bits(init), LOCKED_BIT)
    ensures SpinReachable(To(s, c, Resting, Pure(onUnlock)))
    ensures Bits(onUnlock) <= ALL_BITS && Decode(Bits(onUnlock)) == Pure(onUnlock)
  {
    SpinExtend(s, c, Go(false, false));
    Found(s, c);
    PhaseWord(init);
    PhaseWord(onUnlock);
    SetFlags(Bits(init));
    DecodeInjective(v, Bitwise(Or, Bits(init), LOCKED_BIT));
  }

  lemma ConvertingRuns(s: Spin, v: nat, c: nat, init: Phase, onUnlock: Phase)
    requires SpinReachable(s) && c < |s.pcs| && s.pcs[c] == Converting(init, onUnlock)
    requires v <= ALL_BITS && s.w == Decode(v)
    ensures SpinReachable(ConvertingStep(s, c, init, onUnlock))
    ensures Bitwise(Xor, v, ConvertMask(init, onUnlock)) <= ALL_BITS
    ensures ConvertingStep(s, c, init, onUnlock).w == Decode(Bitwise(Xor, v, ConvertMask(init, onUnlock)))
  {
    SpinExtend(s, c, Go(false, false));
    ConvertXorBits(v, init, onUnlock);
  }

  class SpinLocker {
    var word: nat
    ghost var pcs: seq<SpinPc>

    ghost function Now(): Spin
      reads this
    {
      Spin(Decode(word), pcs)
    }

    ghost predicate Valid()
      reads this
    {
      word <= ALL_BITS && SpinReachable(Now())
    }

    /** `SyncPhaseLocker::new`, for `n` clients that may come to use it. */
    constructor (p: Phase, ghost n: nat)
      ensures Valid() && Now() == SpinStart(p, n)
    {
      word := Bits(p);
      pcs := seq(n, _ => Resting);
      new;
      PhaseWord(p);
      assert SpinsTo(p, n, [], SpinStart(p, n));
    }

    ghost method Become(t: Spin)
      requires word <= ALL_BITS && t.w == Decode(word) && SpinReachable(t)
      modifies `pcs
      ensures Valid() && Now() == t
    {
      pcs := t.pcs;
    }

    method CompareExchange(expected: nat, desired: nat, spurious: bool) returns (ok: bool)
      modifies `word
      ensures ok <==> old(word) == expected && !spurious
      ensures word == if ok then desired else old(word)
    {
      ok := word == expected && !spurious;
      if ok { word := desired; }
    }

    /** The first attempt, on the hinted phase, sync_spinning.rs:495-532 and 587-624. */
    method LockHinted(call: SpinCall, spurious: bool, ghost c: nat) returns (ok: bool)
      requires Valid() && c < |pcs| && pcs[c] == Hinting(call)
      modifies this
      ensures Valid() && Now() == HintStep(old(Now()), c, call, spurious)
      ensures ok <==> match call.how(call.hint)
        case NoLock => call.how(old(Now()).w.phase).NoLock?
        case _ => old(word) == Bits(call.hint) && !spurious
    {
      ghost var t := HintStep(Now(), c, call, spurious);
      HintRuns(Now(), word, c, call, spurious);
      var cur := Bits(call.hint);
      match call.how(call.hint) {
        case NoLock => ok := call.how(PhaseOf(word % 0x100)).NoLock?;
        case Write => ok := CompareExchange(cur, Bitwise(Or, cur, LOCKED_BIT), spurious);
        case Read => ok := CompareExchange(cur, cur + READER_UNITY, spurious);
      }
      Become(t);
    }

    /** sync_spinning.rs:538-550 and 639-652. */
    method LockWrite(call: SpinCall, cur: nat, spurious: bool, ghost c: nat) returns (ok: bool)
      requires Valid() && c < |pcs| && cur <= ALL_BITS && pcs[c] == Writing(call, Decode(cur))
      modifies this
      ensures Valid() && Now() == WritingStep(old(Now()), c, call, Decode(cur), spurious)
      ensures ok <==> old(word) == cur && !(spurious && !call.trying)
    {
      ghost var t := WritingStep(Now(), c, call, Decode(cur), spurious);
      WritingRuns(Now(), word, c, call, cur, spurious);
      ok := CompareExchange(cur, Bitwise(Or, cur, LOCKED_BIT), spurious && !call.trying);
      Become(t);
    }

    /** sync_spinning.rs:552-570 and 656-679. */
    method LockRead(call: SpinCall, cur: nat, spurious: bool, ghost c: nat, ghost spin: bool) returns (ok: bool)
      requires Valid() && c < |pcs| && cur <= ALL_BITS && pcs[c] == Reading(call, Decode(cur))
      modifies this
      ensures Valid() && Now() == ReadingStep(old(Now()), c, call, Decode(cur), spurious, spin)
      ensures ok <==> old(word) == cur && !spurious
    {
      ghost var t := ReadingStep(Now(), c, call, Decode(cur), spurious, spin);
      ReadingRuns(Now(), word, c, call, cur, spurious, spin);
      ghost var left := if word == cur && !spurious then cur + READER_UNITY else word;
      assert t.w == Decode(left);
      ok := CompareExchange(cur, cur + READER_UNITY, spurious);
      assert word == left;
      Become(t);
    }

    /** `Clone for ReadLock`, sync_spinning.rs:283-308. */
    method CloneRead(cur: nat, spurious: bool, ghost src: nat, ghost p: Phase, ghost c: nat) returns (ok: bool)
      requires Valid() && c < |pcs| && cur <= ALL_BITS && pcs[c] == Copying(src, p, Decode(cur))
      modifies this
      ensures Valid() && Now() == CopyingStep(old(Now()), c, src, p, Decode(cur), spurious)
      ensures ok <==> old(word) == cur && !spurious
    {
      ghost var t := CopyingStep(Now(), c, src, p, Decode(cur), spurious);
      CopyingRuns(Now(), word, c, src, p, cur, spurious);
      ghost var left := if word == cur && !spurious then cur + READER_UNITY else word;
      assert t.w == Decode(left);
      ok := CompareExchange(cur, cur + READER_UNITY, spurious);
      assert word == left;
      Become(t);
    }

    /** `Drop for ReadLock`, sync_spinning.rs:310-315. */
    method DropReadLock(ghost p: Phase, ghost c: nat)
      requires Valid() && c < |pcs| && pcs[c] == Leaving(p)
      modifies this
      ensures Valid() && old(Now().w.readers) >= 1
      ensures Now() == To(old(Now()), c, Resting, old(Now()).w.(readers := Monus(old(Now().w.readers), 1)))
    {
      ghost var t := To(Now(), c, Resting, Decode(word).(readers := Monus(Decode(word).readers, 1)));
      LeavingRuns(Now(), word, c, p);
      Found(Now(), c);
      word := WrapSub(word, READER_UNITY);
      Become(t);
    }

    /** `Drop for Lock`, sync_spinning.rs:245-261: the compare-exchange succeeds, `unreachable!()` is dead. */
    method DropLock(init: Phase, onUnlock: Phase, ghost c: nat)
      requires Valid() && c < |pcs| && pcs[c] == Unlocking(init, onUnlock)
      modifies this
      ensures Valid() && Now() == To(old(Now()), c, Resting, Pure(onUnlock))
    {
      ghost var t := To(Now(), c, Resting, Pure(onUnlock));
      UnlockingRuns(Now(), word, c, init, onUnlock);
      var ok := CompareExchange(Bitwise(Or, Bits(init), LOCKED_BIT), Bits(onUnlock), false);
      assert ok;
      Become(t);
    }

    /** `into_read_lock`, sync_spinning.rs:229-243. */
    method IntoReadLock(init: Phase, onUnlock: Phase, ghost c: nat)
      requires Valid() && c < |pcs| && pcs[c] == Converting(init, onUnlock)
      modifies this
      ensures Valid() && Now() == ConvertingStep(old(Now()), c, init, onUnlock)
    {
      ghost var t := ConvertingStep(Now(), c, init, onUnlock);
      ConvertingRuns(Now(), word, c, init, onUnlock);
      word := Bitwise(Xor, word, ConvertMask(init, onUnlock));
      Become(t);
    }

    /** `get_phase_unique`, sync_spinning.rs:358-361. */
    method GetPhaseUnique() returns (p: Option<Phase>)
      requires Valid() && forall i: nat :: i < |pcs| ==> !Holds(pcs[i]) && !Owns(pcs[i])
      ensures p == Some(Now().w.phase) && Now().w == Pure(Now().w.phase)
    {
      SpinQuiescence(Now());
      PureWord(word, Decode(word).phase);
      p := FromBits(word);
    }
  }
}
